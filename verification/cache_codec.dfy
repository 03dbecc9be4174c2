/** The text the availability checker keeps under `ez_api_cache_data`:
    `JSON.stringify({url, timestamp})`, and the reading of it back.

    The writer produces exactly what `JSON.stringify` produces for such an
    object (keys in insertion order, no spaces, the string escapes of
    ECMA-262's `QuoteJSONString`). The reader accepts that canonical form
    only; any other text is treated as text `JSON.parse` rejects. */
module CacheCodec {
  import opened Wrappers
  import opened Strings

  /** A cache entry: the chosen base URL and the `Date.now()` of its commit. */
  datatype CacheEntry = CacheEntry(url: string, timestamp: nat)

  function HexDigit(d: nat): (c: char)
    requires d < 16
  {
    if d < 10 then DigitChar(d) else ('a' as int + d - 10) as char
  }

  function HexValue(c: char): Option<nat> {
    if '0' <= c <= '9' then Some((c - '0') as nat)
    else if 'a' <= c <= 'f' then Some((c - 'a') as nat + 10)
    else None
  }

  lemma HexRoundTrip(d: nat)
    requires d < 16
    ensures HexValue(HexDigit(d)) == Some(d)
  {
  }

  /** The JSON string escape of one character. */
  function EscapeChar(c: char): string {
    if c == '"' then ['\\', '"']
    else if c == '\\' then ['\\', '\\']
    else if c as int == 8 then ['\\', 'b']
    else if c as int == 9 then ['\\', 't']
    else if c as int == 10 then ['\\', 'n']
    else if c as int == 12 then ['\\', 'f']
    else if c as int == 13 then ['\\', 'r']
    else if c as int < 32 then ['\\', 'u', '0', '0', HexDigit(c as int / 16), HexDigit(c as int % 16)]
    else [c]
  }

  function EscapeString(s: string): string
    decreases |s|
  {
    if |s| == 0 then "" else EscapeChar(s[0]) + EscapeString(s[1..])
  }

  function Prepend(c: char, r: Option<(string, string)>): Option<(string, string)> {
    match r
    case None => None
    case Some((s, rest)) => Some(([c] + s, rest))
  }

  /** Reads the body of a JSON string literal up to its closing quote:
      the decoded text and what follows the quote. */
  function ReadString(t: string): Option<(string, string)>
    decreases |t|
  {
    if |t| == 0 then None
    else if t[0] == '"' then Some(("", t[1..]))
    else if t[0] == '\\' then
      if |t| < 2 then None
      else if t[1] == '"' then Prepend('"', ReadString(t[2..]))
      else if t[1] == '\\' then Prepend('\\', ReadString(t[2..]))
      else if t[1] == 'b' then Prepend(8 as char, ReadString(t[2..]))
      else if t[1] == 't' then Prepend(9 as char, ReadString(t[2..]))
      else if t[1] == 'n' then Prepend(10 as char, ReadString(t[2..]))
      else if t[1] == 'f' then Prepend(12 as char, ReadString(t[2..]))
      else if t[1] == 'r' then Prepend(13 as char, ReadString(t[2..]))
      else if t[1] == 'u' && |t| >= 6 && t[2] == '0' && t[3] == '0' then
        match (HexValue(t[4]), HexValue(t[5]))
        case (Some(h), Some(l)) => Prepend((h * 16 + l) as char, ReadString(t[6..]))
        case _ => None
      else None
    else if (t[0] as int) < 32 then None
    else Prepend(t[0], ReadString(t[1..]))
  }

  lemma ReadEscapedChar(c: char, t: string)
    ensures ReadString(EscapeChar(c) + t) == Prepend(c, ReadString(t))
  {
    var e := EscapeChar(c) + t;
    if c == '"' || c == '\\' || c as int == 8 || c as int == 9 || c as int == 10 || c as int == 12 || c as int == 13 {
      assert e[2..] == t;
    } else if c as int < 32 {
      HexRoundTrip(c as int / 16);
      HexRoundTrip(c as int % 16);
      assert e[6..] == t;
    } else {
      assert e[1..] == t;
    }
  }

  /** Reading an escaped string followed by a closing quote gives the string
      back, and leaves what follows the quote. */
  lemma {:induction false} ReadEscapedString(s: string, rest: string)
    ensures ReadString(EscapeString(s) + "\"" + rest) == Some((s, rest))
    decreases |s|
  {
    if |s| == 0 {
      assert EscapeString(s) + "\"" + rest == "\"" + rest;
      assert ("\"" + rest)[1..] == rest;
    } else {
      var tail := EscapeString(s[1..]) + "\"" + rest;
      assert EscapeString(s) + "\"" + rest == EscapeChar(s[0]) + tail;
      ReadEscapedChar(s[0], tail);
      ReadEscapedString(s[1..], rest);
      assert [s[0]] + s[1..] == s;
    }
  }

  const EntryHead := "{\"url\":\""
  const EntryMiddle := ",\"timestamp\":"

  /** `JSON.stringify({ url, timestamp })` */
  function EncodeCacheEntry(e: CacheEntry): string {
    EntryHead + EscapeString(e.url) + "\"" + EntryMiddle + NatToString(e.timestamp) + "}"
  }

  /** Reads `,"timestamp":<digits>}`, what follows the url's closing quote. */
  function DecodeTimestamp(rest: string): Option<nat> {
    if !StartsWith(rest, EntryMiddle) || |rest| <= |EntryMiddle| || rest[|rest| - 1] != '}' then None
    else ParseNat(rest[|EntryMiddle|..|rest| - 1])
  }

  lemma DecodeTimestampRoundTrip(n: nat)
    ensures DecodeTimestamp(EntryMiddle + NatToString(n) + "}") == Some(n)
  {
    var rest := EntryMiddle + NatToString(n) + "}";
    assert rest[|EntryMiddle|..|rest| - 1] == NatToString(n);
    ParseNatToString(n);
  }

  /** Reads `<url>","timestamp":<digits>}`, what follows the opening
      quote of the url. */
  function DecodeEntryBody(t: string): Option<CacheEntry> {
    match ReadString(t)
    case None => None
    case Some((url, rest)) =>
      match DecodeTimestamp(rest)
      case None => None
      case Some(ts) => Some(CacheEntry(url, ts))
  }

  lemma DecodeEntryBodyRoundTrip(e: CacheEntry)
    ensures DecodeEntryBody(EscapeString(e.url) + "\"" + EntryMiddle + NatToString(e.timestamp) + "}") == Some(e)
  {
    var rest := EntryMiddle + NatToString(e.timestamp) + "}";
    assert EscapeString(e.url) + "\"" + EntryMiddle + NatToString(e.timestamp) + "}" == EscapeString(e.url) + "\"" + rest;
    ReadEscapedString(e.url, rest);
    DecodeTimestampRoundTrip(e.timestamp);
  }

  /** `JSON.parse` followed by reading `url` and `timestamp`; `None` when the
      text is not a canonical entry (where `JSON.parse` would throw). */
  function DecodeCacheEntry(s: string): Option<CacheEntry> {
    if !StartsWith(s, EntryHead) then None else DecodeEntryBody(s[|EntryHead|..])
  }

  /** An entry the checker writes is read back unchanged by the next check. */
  lemma CacheEntryRoundTrip(e: CacheEntry)
    ensures DecodeCacheEntry(EncodeCacheEntry(e)) == Some(e)
  {
    var body := EscapeString(e.url) + "\"" + EntryMiddle + NatToString(e.timestamp) + "}";
    assert EncodeCacheEntry(e) == EntryHead + body;
    assert (EntryHead + body)[|EntryHead|..] == body;
    DecodeEntryBodyRoundTrip(e);
  }
}
