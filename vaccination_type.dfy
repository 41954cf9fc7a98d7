/** The vaccine-type codec (chaincode/vaccination_type.go). VaccinationType
    is a Go string type: it can hold any string, and the codec accepts a
    closed set of five names. */
module VaccinationTypes {
  import opened Wrappers

  type VaccinationType = string

  const Alpha: VaccinationType := "alpha"
  const Bravo: VaccinationType := "bravo"
  const Charlie: VaccinationType := "charlie"
  const Delta: VaccinationType := "delta"
  const Echo: VaccinationType := "echo"

  /** Exactly the names the codec accepts. */
  const ValidTypes: set<VaccinationType> := {Alpha, Bravo, Charlie, Delta, Echo}

  /** What a method with a pointer receiver leaves behind: the receiver's
      value afterwards and the error it returned, if any. */
  datatype Assigned = Assigned(receiver: VaccinationType, err: Option<Error>)

  /** VaccinationType.FromString: a switch over the five names. On a match the
      receiver becomes that name; otherwise an error is returned and the
      receiver keeps its value. */
  function FromString(current: VaccinationType, s: string): (r: Assigned)
    ensures r.err.None? <==> s in ValidTypes
    ensures r.err.None? ==> r.receiver == s
    ensures r.err.Some? ==> r.receiver == current && r.err == Some(CodecError)
  {
    if s == "alpha" then Assigned(Alpha, None)
    else if s == "bravo" then Assigned(Bravo, None)
    else if s == "charlie" then Assigned(Charlie, None)
    else if s == "delta" then Assigned(Delta, None)
    else if s == "echo" then Assigned(Echo, None)
    else Assigned(current, Some(CodecError))
  }

  // ---------------------------------------------------------------------------
  // json.Unmarshal of a value into a Go string

  /** The outcome of json.Unmarshal(data, &s) for a string `s`: JSON null
      leaves `s` untouched, a string literal is unescaped, anything else is an
      error. */
  datatype JsonString = JsonNull | JsonText(text: string) | NotJsonString

  function HexValue(c: char): (v: int)
    ensures -1 <= v < 16
  {
    if '0' <= c <= '9' then c as int - '0' as int
    else if 'a' <= c <= 'f' then c as int - 'a' as int + 10
    else if 'A' <= c <= 'F' then c as int - 'A' as int + 10
    else -1
  }

  /** The code unit of a `\uXXXX` escape at the start of `s`, or -1 (Go's getu4). */
  function EscapedUnit(s: string): (u: int)
    ensures -1 <= u < 0x10000
  {
    if |s| >= 6 && s[0] == '\\' && s[1] == 'u'
       && HexValue(s[2]) >= 0 && HexValue(s[3]) >= 0 && HexValue(s[4]) >= 0 && HexValue(s[5]) >= 0
    then 4096 * HexValue(s[2]) + 256 * HexValue(s[3]) + 16 * HexValue(s[4]) + HexValue(s[5])
    else -1
  }

  const Replacement: char := 0xFFFD as char

  predicate IsSurrogate(u: int) { 0xD800 <= u < 0xE000 }

  /** The one-character escapes JSON allows, and what they stand for. */
  function SimpleEscape(e: char): Option<char> {
    match e
    case '"' => Some('"')
    case '\\' => Some('\\')
    case '/' => Some('/')
    case 'b' => Some(8 as char)
    case 'f' => Some(12 as char)
    case 'n' => Some('\n')
    case 'r' => Some('\r')
    case 't' => Some('\t')
    case _ => None
  }

  /** A character that may stand unescaped inside a JSON string. */
  predicate IsPlain(c: char) { c != '"' && c != '\\' && c as int >= 0x20 }

  /** Unescapes the text between the quotes of a JSON string literal. A
      surrogate pair of `\u` escapes becomes one character; a lone surrogate
      becomes U+FFFD, as Go's decoder does. */
  function DecodeBody(body: string): (r: Option<string>)
    ensures (forall i | 0 <= i < |body| :: IsPlain(body[i])) ==> r == Some(body)
    decreases |body|
  {
    if body == [] then Some([])
    else if IsPlain(body[0]) then
      assert body == [body[0]] + body[1..];
      assert (forall i | 0 <= i < |body| :: IsPlain(body[i])) ==>
        forall i | 0 <= i < |body[1..]| :: IsPlain(body[1..][i]);
      match DecodeBody(body[1..])
      case Some(rest) => Some([body[0]] + rest)
      case None => None
    else if body[0] != '\\' || |body| < 2 then None
    else if body[1] != 'u' then
      match (SimpleEscape(body[1]), DecodeBody(body[2..]))
      case (Some(c), Some(rest)) => Some([c] + rest)
      case _ => None
    else
      var u := EscapedUnit(body);
      if u < 0 then None
      else if !IsSurrogate(u) then
        match DecodeBody(body[6..])
        case Some(rest) => Some([u as char] + rest)
        case None => None
      else
        var low := EscapedUnit(body[6..]);
        if u < 0xDC00 && 0xDC00 <= low < 0xE000 then
          match DecodeBody(body[12..])
          case Some(rest) => Some([(0x10000 + (u - 0xD800) * 0x400 + (low - 0xDC00)) as char] + rest)
          case None => None
        else
          match DecodeBody(body[6..])
          case Some(rest) => Some([Replacement] + rest)
          case None => None
  }

  /** json.Unmarshal(data, &s) for a string `s` (no surrounding white space). */
  function DecodeJsonString(data: string): (r: JsonString)
    ensures r.JsonText? ==> |data| >= 2 && data[0] == '"' && data[|data| - 1] == '"'
    ensures r.JsonNull? <==> data == "null"
  {
    if data == "null" then JsonNull
    else if |data| >= 2 && data[0] == '"' && data[|data| - 1] == '"' then
      match DecodeBody(data[1..|data| - 1])
      case Some(text) => JsonText(text)
      case None => NotJsonString
    else NotJsonString
  }

  // ---------------------------------------------------------------------------
  // VaccinationType.UnmarshalJSON

  /** VaccinationType.UnmarshalJSON as written: it checks that `data` is a JSON
      string, then hands the raw, still quoted bytes to FromString. */
  function UnmarshalTypeAsWritten(current: VaccinationType, data: string): (r: Assigned)
    ensures r.err.None? ==> data in ValidTypes && r.receiver == data
    ensures r.err.Some? ==> r.receiver == current
  {
    match DecodeJsonString(data)
    case NotJsonString => Assigned(current, Some(CodecError))
    case _ => FromString(current, data)
  }

  /** As written, UnmarshalJSON rejects every input: whatever is a JSON string
      starts with a quote, and no valid name does. */
  lemma AsWrittenRejectsEverything(current: VaccinationType, data: string)
    ensures UnmarshalTypeAsWritten(current, data).err == Some(CodecError)
    ensures UnmarshalTypeAsWritten(current, data).receiver == current
  {
    match DecodeJsonString(data)
    case NotJsonString =>
    case JsonNull =>
    case JsonText(_) =>
      assert data[0] == '"';
      assert forall n | n in ValidTypes :: n[0] != '"';
  }

  /** UnmarshalJSON as evidently intended: FromString on the decoded string.
      JSON null leaves the string empty, which FromString rejects. */
  function UnmarshalType(current: VaccinationType, data: string): (r: Assigned)
    ensures r.err.None? <==> DecodeJsonString(data).JsonText? && DecodeJsonString(data).text in ValidTypes
    ensures r.err.None? ==> r.receiver == DecodeJsonString(data).text && r.receiver in ValidTypes
    ensures r.err.Some? ==> r.receiver == current && r.err == Some(CodecError)
  {
    match DecodeJsonString(data)
    case NotJsonString => Assigned(current, Some(CodecError))
    case JsonNull => FromString(current, "")
    case JsonText(s) => FromString(current, s)
  }

  /** The JSON form of a valid name: the name between double quotes. */
  function QuoteName(n: VaccinationType): string {
    ['"'] + n + ['"']
  }

  /** Round trip of the intended codec: every valid name, quoted, decodes to
      itself. */
  lemma UnmarshalTypeRoundTrip(current: VaccinationType, n: VaccinationType)
    requires n in ValidTypes
    ensures UnmarshalType(current, QuoteName(n)) == Assigned(n, None)
  {
    NamesArePlain(n);
    PlainNameDecodes(current, n);
  }

  /** A quoted string with nothing to unescape is decoded as that string, so
      it is accepted exactly when FromString accepts it: any other name
      stored this way is refused with a codec error. */
  lemma PlainNameDecodes(current: VaccinationType, n: string)
    requires forall i | 0 <= i < |n| :: IsPlain(n[i])
    ensures UnmarshalType(current, QuoteName(n)) == FromString(current, n)
    ensures n !in ValidTypes ==> UnmarshalType(current, QuoteName(n)) == Assigned(current, Some(CodecError))
  {
    var q := QuoteName(n);
    assert q[1..|q| - 1] == n;
    assert q != "null" by { assert q[0] == '"'; }
    assert DecodeBody(n) == Some(n);
  }

  /** The five names need no escaping in JSON. */
  lemma NamesArePlain(n: VaccinationType)
    requires n in ValidTypes
    ensures forall i | 0 <= i < |n| :: IsPlain(n[i])
  {
    if n == Alpha {
    } else if n == Bravo {
    } else if n == Charlie {
    } else if n == Delta {
    } else {
      assert n == Echo;
    }
  }
}
