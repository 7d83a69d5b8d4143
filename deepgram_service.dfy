/**
 * The transcription and speech service: the key check, the live-transcription socket's URL and
 * subprotocols, and the text-to-speech request and its error message. The socket and the HTTP
 * exchange themselves are not modelled; a response is a parameter.
 *
 * Each string the service builds has a reader here that takes it apart again, and a lemma
 * shows the reader gets back exactly what went in.
 */
module Deepgram {
  import opened Wrappers
  import opened JsString
  import Config

  /** A constructed service; only the key varies, the settings come from `Config`. */
  datatype DeepgramService = DeepgramService(apiKey: string)

  /** The error the constructor throws for a missing or empty key. */
  const KeyRequired: string := "Deepgram API key is required"

  /** `new DeepgramService(apiKey)`. */
  function NewService(apiKey: Option<string>): (r: Result<DeepgramService>)
    ensures r.Ok? <==> apiKey.Some? && apiKey.value != ""
    ensures r.Ok? ==> r.value.apiKey == apiKey.value
    ensures r.Err? ==> r.error == KeyRequired
  {
    if apiKey.None? || apiKey.value == "" then Err(KeyRequired) else Ok(DeepgramService(apiKey.value))
  }

  // ---------------------------------------------------------------- splitting on a character

  /** The position of the first `c` in `s`, or `|s|` when there is none. */
  function FindChar(s: string, c: char): (i: nat)
    ensures i <= |s| && c !in s[..i]
    ensures i < |s| ==> s[i] == c
  {
    if s == [] then 0
    else if s[0] == c then 0
    else
      var j := FindChar(s[1..], c);
      assert s[..j + 1] == [s[0]] + s[1..][..j];
      j + 1
  }

  /** A `c` right after a stretch without one is the first. */
  lemma FindCharAfter(a: string, c: char, rest: string)
    requires c !in a
    ensures FindChar(a + [c] + rest, c) == |a|
  {
    var s := a + [c] + rest;
    assert s[|a|] == c;
  }

  /** `s.split(sep)` for a one-character separator. */
  function Split(s: string, sep: char): (r: seq<string>)
    ensures |r| >= 1
    ensures forall i :: 0 <= i < |r| ==> sep !in r[i]
  {
    if s == [] then [""]
    else
      var rest := Split(s[1..], sep);
      if s[0] == sep then [""] + rest else [[s[0]] + rest[0]] + rest[1..]
  }

  lemma {:induction false} SplitWithoutSeparator(a: string, sep: char)
    requires sep !in a
    ensures Split(a, sep) == [a]
  {
    if a != [] {
      SplitWithoutSeparator(a[1..], sep);
      assert [a[0]] + a[1..] == a;
    }
  }

  lemma {:induction false} SplitAtFirst(a: string, sep: char, rest: string)
    requires sep !in a
    ensures Split(a + [sep] + rest, sep) == [a] + Split(rest, sep)
  {
    var s := a + [sep] + rest;
    if a == [] {
      assert s[1..] == rest;
    } else {
      assert s[1..] == a[1..] + [sep] + rest;
      SplitAtFirst(a[1..], sep, rest);
      assert [a[0]] + a[1..] == a;
    }
  }

  /** Splitting what was joined on a separator none of the parts contains gives back the parts. */
  lemma {:induction false} SplitJoin(parts: seq<string>, sep: char)
    requires |parts| >= 1
    requires forall i :: 0 <= i < |parts| ==> sep !in parts[i]
    ensures Split(Join(parts, [sep]), sep) == parts
    decreases |parts|
  {
    if |parts| == 1 {
      SplitWithoutSeparator(parts[0], sep);
    } else {
      SplitAtFirst(parts[0], sep, Join(parts[1..], [sep]));
      SplitJoin(parts[1..], sep);
    }
  }

  /** Joining the pieces of a split on its separator gives back the string. */
  lemma {:induction false} JoinSplit(s: string, sep: char)
    ensures Join(Split(s, sep), [sep]) == s
    decreases |s|
  {
    if s != [] {
      var rest := Split(s[1..], sep);
      JoinSplit(s[1..], sep);
      if s[0] == sep {
        assert ([""] + rest)[1..] == rest;
      } else if |rest| > 1 {
        var r := [[s[0]] + rest[0]] + rest[1..];
        assert r[1..] == rest[1..];
      }
    }
  }

  // ---------------------------------------------------------------- URLs and query strings

  /** One `name=value` pair of a query string. */
  datatype Param = Param(name: string, value: string)

  /** The text of one pair. */
  function PairText(p: Param): string {
    p.name + "=" + p.value
  }

  function PairTexts(ps: seq<Param>): (r: seq<string>)
    ensures |r| == |ps|
    ensures forall i :: 0 <= i < |ps| ==> r[i] == PairText(ps[i])
  {
    if ps == [] then [] else [PairText(ps[0])] + PairTexts(ps[1..])
  }

  /** The pairs joined by `&`. */
  function QueryString(ps: seq<Param>): string {
    Join(PairTexts(ps), "&")
  }

  /** Reads one pair: the name runs up to the first `=`; without one the value is empty. */
  function ReadPair(t: string): (p: Param)
    ensures '=' !in p.name
  {
    var i := FindChar(t, '=');
    if i == |t| then Param(t, "") else Param(t[..i], t[i + 1..])
  }

  function ReadPairs(ts: seq<string>): (r: seq<Param>)
    ensures |r| == |ts|
    ensures forall i :: 0 <= i < |ts| ==> r[i] == ReadPair(ts[i])
  {
    if ts == [] then [] else [ReadPair(ts[0])] + ReadPairs(ts[1..])
  }

  /** The pairs of a query string, split on `&` and then on the first `=`; nothing is decoded. */
  function ReadQuery(q: string): seq<Param> {
    ReadPairs(Split(q, '&'))
  }

  /** Pairs that survive the trip: no name holds `&` or `=`, and no value holds `&`. */
  predicate QuerySafe(ps: seq<Param>) {
    forall i :: 0 <= i < |ps| ==> '&' !in ps[i].name && '=' !in ps[i].name && '&' !in ps[i].value
  }

  lemma ReadPairText(p: Param)
    requires '=' !in p.name
    ensures ReadPair(PairText(p)) == p
  {
    FindCharAfter(p.name, '=', p.value);
    assert PairText(p) == p.name + ['='] + p.value;
  }

  /** Reading a query string gives back the pairs it was written from. */
  lemma {:induction false} ReadQueryString(ps: seq<Param>)
    requires |ps| >= 1 && QuerySafe(ps)
    ensures ReadQuery(QueryString(ps)) == ps
  {
    var texts := PairTexts(ps);
    forall i | 0 <= i < |texts|
      ensures '&' !in texts[i]
    {
      assert texts[i] == ps[i].name + "=" + ps[i].value;
    }
    SplitJoin(texts, '&');
    assert "&" == ['&'];
    forall i | 0 <= i < |ps|
      ensures ReadPair(texts[i]) == ps[i]
    {
      ReadPairText(ps[i]);
    }
  }

  /** A URL taken apart at its first `?`: the endpoint, and the pairs of the query. */
  function ReadUrl(url: string): (r: Option<(string, seq<Param>)>)
    ensures r.Some? ==> '?' !in r.value.0
  {
    var i := FindChar(url, '?');
    if i == |url| then None else Some((url[..i], ReadQuery(url[i + 1..])))
  }

  /** A URL written as an endpoint without `?` and a query string reads back as those two. */
  lemma ReadUrlOf(endpoint: string, ps: seq<Param>)
    requires '?' !in endpoint && |ps| >= 1 && QuerySafe(ps)
    ensures ReadUrl(endpoint + "?" + QueryString(ps)) == Some((endpoint, ps))
  {
    var url := endpoint + "?" + QueryString(ps);
    assert url == endpoint + ['?'] + QueryString(ps);
    FindCharAfter(endpoint, '?', QueryString(ps));
    assert url[..|endpoint|] == endpoint;
    assert url[|endpoint| + 1..] == QueryString(ps);
    ReadQueryString(ps);
  }

  lemma DigitsHaveNoSeparator(s: string)
    requires AllDigits(s)
    ensures '&' !in s && '=' !in s
  {
  }

  // ---------------------------------------------------------------- live transcription

  const ListenEndpoint: string := "wss://api.deepgram.com/v1/listen"

  /** The URL `createWebSocket` opens, for the given audio format. */
  function ListenUrl(stt: Config.SttConfig): string {
    ListenEndpoint + "?encoding=" + stt.encoding
    + "&sample_rate=" + NatToString(stt.sampleRate)
    + "&channels=" + NatToString(stt.channels)
  }

  /** The query of a listen URL, pair by pair. */
  function ListenParams(stt: Config.SttConfig): seq<Param> {
    [Param("encoding", stt.encoding),
     Param("sample_rate", NatToString(stt.sampleRate)),
     Param("channels", NatToString(stt.channels))]
  }

  /** Reads the audio format back out of a listen URL. */
  function ReadListenUrl(url: string): Option<Config.SttConfig> {
    match ReadUrl(url)
    case None => None
    case Some((endpoint, ps)) =>
      if endpoint == ListenEndpoint && |ps| == 3
        && ps[0].name == "encoding" && ps[1].name == "sample_rate" && ps[2].name == "channels"
        && AllDigits(ps[1].value) && AllDigits(ps[2].value)
      then Some(Config.SttConfig(ps[0].value, ParseNat(ps[1].value), ParseNat(ps[2].value)))
      else None
  }

  /** Three pairs joined by `&`. */
  lemma QueryOfThree(p0: Param, p1: Param, p2: Param)
    ensures QueryString([p0, p1, p2]) == PairText(p0) + "&" + PairText(p1) + "&" + PairText(p2)
  {
    var t0, t1, t2 := PairText(p0), PairText(p1), PairText(p2);
    assert PairTexts([p0, p1, p2]) == [t0, t1, t2];
    assert [t0, t1, t2][1..] == [t1, t2];
    assert [t1, t2][1..] == [t2];
    assert Join([t1, t2], "&") == t1 + "&" + t2;
    assert Join([t0, t1, t2], "&") == t0 + "&" + (t1 + "&" + t2);
  }

  /** A literal `<sep><name>=` followed by a value is the separator followed by the pair. */
  lemma PairAfter(sep: string, name: string, lead: string, value: string)
    requires lead == sep + name + "="
    ensures lead + value == sep + PairText(Param(name, value))
  {
  }

  /** Each literal piece of the listen URL with the value after it is a separator and a pair. */
  lemma ListenPieces(e: string, r: string, c: string)
    ensures "?encoding=" + e == "?" + PairText(Param("encoding", e))
    ensures "&sample_rate=" + r == "&" + PairText(Param("sample_rate", r))
    ensures "&channels=" + c == "&" + PairText(Param("channels", c))
  {
    assert "?encoding=" == "?" + "encoding" + "=";
    PairAfter("?", "encoding", "?encoding=", e);
    assert "&sample_rate=" == "&" + "sample_rate" + "=";
    PairAfter("&", "sample_rate", "&sample_rate=", r);
    assert "&channels=" == "&" + "channels" + "=";
    PairAfter("&", "channels", "&channels=", c);
  }

  /** Regrouping a URL written piece by piece into endpoint, `?` and query. */
  lemma RegroupListenUrl(ep: string, a: string, e: string, b: string, r: string, c: string, v: string,
                q: string, amp: string, t0: string, t1: string, t2: string)
    requires a + e == q + t0 && b + r == amp + t1 && c + v == amp + t2
    ensures ep + a + e + b + r + c + v == ep + q + (t0 + amp + t1 + amp + t2)
  {
    calc {
      ep + a + e + b + r + c + v;
      ep + (a + e) + (b + r) + (c + v);
      ep + (q + t0) + (amp + t1) + (amp + t2);
      ep + q + (t0 + amp + t1 + amp + t2);
    }
  }

  /** The listen URL is the listen endpoint with the three format parameters as its query. */
  lemma ListenUrlShape(stt: Config.SttConfig)
    ensures ListenUrl(stt) == ListenEndpoint + "?" + QueryString(ListenParams(stt))
  {
    var ps := ListenParams(stt);
    var e, r, c := ps[0].value, ps[1].value, ps[2].value;
    QueryOfThree(ps[0], ps[1], ps[2]);
    ListenPieces(e, r, c);
    RegroupListenUrl(ListenEndpoint, "?encoding=", e, "&sample_rate=", r, "&channels=", c,
            "?", "&", PairText(ps[0]), PairText(ps[1]), PairText(ps[2]));
  }

  /** Neither endpoint contains a `?`. */
  lemma EndpointsHaveNoQuery()
    ensures '?' !in ListenEndpoint && '?' !in SpeakEndpoint
  {
  }

  lemma ListenParamsSafe(stt: Config.SttConfig)
    requires '&' !in stt.encoding
    ensures QuerySafe(ListenParams(stt))
  {
    ListenNamesSafe();
    DigitsHaveNoSeparator(NatToString(stt.sampleRate));
    DigitsHaveNoSeparator(NatToString(stt.channels));
    var ps := ListenParams(stt);
    assert ps[0].name == "encoding" && ps[1].name == "sample_rate" && ps[2].name == "channels";
  }

  /** The listen parameters' names hold neither separator. */
  lemma ListenNamesSafe()
    ensures '&' !in "encoding" && '=' !in "encoding"
    ensures '&' !in "sample_rate" && '=' !in "sample_rate"
    ensures '&' !in "channels" && '=' !in "channels"
  {
  }

  /** A listen URL splits back into the listen endpoint and its three parameters. */
  lemma ListenUrlReads(stt: Config.SttConfig)
    requires '&' !in stt.encoding
    ensures ReadUrl(ListenUrl(stt)) == Some((ListenEndpoint, ListenParams(stt)))
  {
    ListenUrlShape(stt);
    EndpointsHaveNoQuery();
    ListenParamsSafe(stt);
    ReadUrlOf(ListenEndpoint, ListenParams(stt));
  }

  /** Every audio format whose encoding holds no `&` can be read back from its listen URL. */
  lemma ListenUrlRoundTrip(stt: Config.SttConfig)
    requires '&' !in stt.encoding
    ensures ReadListenUrl(ListenUrl(stt)) == Some(stt)
  {
    ListenUrlReads(stt);
    ParseNatToString(stt.sampleRate);
    ParseNatToString(stt.channels);
  }

  /** The socket `createWebSocket` opens: its URL and its subprotocols. */
  datatype SocketRequest = SocketRequest(url: string, protocols: seq<string>)

  /** `createWebSocket()`: the configured format travels in the URL, the key as a subprotocol. */
  function CreateWebSocket(svc: DeepgramService): (r: SocketRequest)
    ensures ReadListenUrl(r.url) == Some(Config.Stt)
    ensures |r.protocols| == 2 && r.protocols[0] == "token" && r.protocols[1] == svc.apiKey
  {
    assert Config.Stt.encoding == "linear16";
    ListenUrlRoundTrip(Config.Stt);
    SocketRequest(ListenUrl(Config.Stt), ["token", svc.apiKey])
  }

  // ---------------------------------------------------------------- JSON text

  /** The lowercase hexadecimal digit of `d`. */
  function HexDigit(d: nat): (c: char)
    requires d < 16
  {
    if d < 10 then ('0' as int + d) as char else ('a' as int + d - 10) as char
  }

  /** The value of a hexadecimal digit of either case. */
  function HexValue(c: char): (v: Option<nat>)
    ensures v.Some? ==> v.value < 16
  {
    if '0' <= c <= '9' then Some(c as int - '0' as int)
    else if 'a' <= c <= 'f' then Some(c as int - 'a' as int + 10)
    else if 'A' <= c <= 'F' then Some(c as int - 'A' as int + 10)
    else None
  }

  /** The value of four hexadecimal digits. */
  function HexQuad(h: string): (v: Option<nat>)
    requires |h| == 4
    ensures v.Some? ==> v.value < 0x10000
  {
    var a, b, c, d := HexValue(h[0]), HexValue(h[1]), HexValue(h[2]), HexValue(h[3]);
    if a.Some? && b.Some? && c.Some? && d.Some?
    then Some(((a.value * 16 + b.value) * 16 + c.value) * 16 + d.value)
    else None
  }

  /**
   * How `JSON.stringify` writes one character inside a string (QuoteJSONString in ECMA-262):
   * the two-character escapes first, then `\u00XX` for the other control characters.
   */
  function EscapeChar(c: char): string {
    if c == '"' then "\\\""
    else if c == '\\' then "\\\\"
    else if c as int == 0x08 then "\\b"
    else if c == '\t' then "\\t"
    else if c == '\n' then "\\n"
    else if c as int == 0x0C then "\\f"
    else if c == '\r' then "\\r"
    else if (c as int) < 0x20 then "\\u00" + [HexDigit(c as int / 16), HexDigit(c as int % 16)]
    else [c]
  }

  /** The characters between the quotes of `JSON.stringify(t)`. */
  function Escape(t: string): string {
    if t == [] then "" else EscapeChar(t[0]) + Escape(t[1..])
  }

  /** The character a `\uXXXX` escape stands for; a surrogate code unit alone is none. */
  function HexChar(h: string): Option<char>
    requires |h| == 4
  {
    var v := HexQuad(h);
    if v.Some? && (v.value < 0xD800 || 0xE000 <= v.value) then Some(v.value as char) else None
  }

  /** The character a two-character escape stands for. */
  function SimpleEscape(e: char): Option<char> {
    if e == '"' then Some('"')
    else if e == '\\' then Some('\\')
    else if e == '/' then Some('/')
    else if e == 'b' then Some(0x08 as char)
    else if e == 't' then Some('\t')
    else if e == 'n' then Some('\n')
    else if e == 'f' then Some(0x0C as char)
    else if e == 'r' then Some('\r')
    else None
  }

  function Prepend(c: char, r: Option<string>): (p: Option<string>)
    ensures p.Some? <==> r.Some?
  {
    if r.Some? then Some([c] + r.value) else None
  }

  /**
   * The text a JSON string's contents stand for, or `None` when they are not well formed
   * (an unescaped quote or control character, or an unknown escape).
   */
  function Unescape(s: string): Option<string>
    decreases |s|
  {
    if s == [] then Some("")
    else if s[0] == '\\' then
      if |s| >= 6 && s[1] == 'u' then
        var c := HexChar(s[2..6]);
        if c.Some? then Prepend(c.value, Unescape(s[6..])) else None
      else if |s| >= 2 && SimpleEscape(s[1]).Some? then Prepend(SimpleEscape(s[1]).value, Unescape(s[2..]))
      else None
    else if s[0] == '"' || (s[0] as int) < 0x20 then None
    else Prepend(s[0], Unescape(s[1..]))
  }

  lemma UnescapeChar(c: char, rest: string)
    ensures Unescape(EscapeChar(c) + rest) == Prepend(c, Unescape(rest))
  {
    var s := EscapeChar(c) + rest;
    if c == '"' || c == '\\' || c as int == 0x08 || c == '\t' || c == '\n' || c as int == 0x0C || c == '\r' {
      assert s[2..] == rest;
    } else if (c as int) < 0x20 {
      var n := c as int;
      assert s[2..6] == ['0', '0', HexDigit(n / 16), HexDigit(n % 16)];
      assert HexQuad(s[2..6]) == Some(n);
      assert HexChar(s[2..6]) == Some(c);
      assert s[6..] == rest;
    } else {
      assert s[1..] == rest;
    }
  }

  /** The contents `JSON.stringify` writes for a text read back as that text. */
  lemma {:induction false} UnescapeEscape(t: string)
    ensures Unescape(Escape(t)) == Some(t)
  {
    if t != [] {
      UnescapeChar(t[0], Escape(t[1..]));
      UnescapeEscape(t[1..]);
      assert [t[0]] + t[1..] == t;
    }
  }

  // ---------------------------------------------------------------- text to speech

  const SpeakEndpoint: string := "https://api.deepgram.com/v1/speak"

  /** The URL `textToSpeech` posts to, for a voice model. */
  function SpeakUrl(model: string): string {
    SpeakEndpoint + "?model=" + model
  }

  /** The speak URL is the speak endpoint with the model as its one query parameter. */
  lemma SpeakUrlShape(model: string)
    ensures SpeakUrl(model) == SpeakEndpoint + "?" + QueryString([Param("model", model)])
  {
    var p := Param("model", model);
    assert PairTexts([p]) == [PairText(p)];
    assert "?model=" == "?" + "model" + "=";
    PairAfter("?", "model", "?model=", model);
    assert SpeakEndpoint + "?model=" + model == SpeakEndpoint + ("?" + PairText(p));
  }

  /** A voice model whose name holds no `&` can be read back from the speak URL. */
  lemma SpeakUrlRoundTrip(model: string)
    requires '&' !in model
    ensures ReadUrl(SpeakUrl(model)) == Some((SpeakEndpoint, [Param("model", model)]))
  {
    SpeakUrlShape(model);
    EndpointsHaveNoQuery();
    ReadUrlOf(SpeakEndpoint, [Param("model", model)]);
  }

  /** The `Authorization` header for a key. */
  function AuthorizationHeader(apiKey: string): string {
    "Token " + apiKey
  }

  /** The key an `Authorization` header carries, when it has the token scheme. */
  function ReadToken(header: string): (k: Option<string>)
    ensures k.Some? ==> header == AuthorizationHeader(k.value)
  {
    if |header| >= 6 && header[..6] == "Token " then Some(header[6..]) else None
  }

  lemma ReadTokenOf(apiKey: string)
    ensures ReadToken(AuthorizationHeader(apiKey)) == Some(apiKey)
  {
    assert AuthorizationHeader(apiKey)[6..] == apiKey;
  }

  /** `JSON.stringify({ text })`. */
  function TextBody(text: string): string {
    "{\"text\":\"" + Escape(text) + "\"}"
  }

  /** The text a `{"text": ...}` body carries, read back. */
  function ReadTextBody(body: string): Option<string> {
    if |body| >= 11 && body[..9] == "{\"text\":\"" && body[|body| - 2..] == "\"}"
    then Unescape(body[9..|body| - 2])
    else None
  }

  /** Every text can be read back from the body that carries it. */
  lemma TextBodyRoundTrip(text: string)
    ensures ReadTextBody(TextBody(text)) == Some(text)
  {
    var body := TextBody(text);
    var e := Escape(text);
    assert body[..9] == "{\"text\":\"";
    assert body[9..|body| - 2] == e;
    assert body[|body| - 2..] == "\"}";
    UnescapeEscape(text);
  }

  /** The POST request `textToSpeech` makes. */
  datatype TtsRequest = TtsRequest(
    url: string,
    httpMethod: string,
    authorization: string,
    contentType: string,
    body: string)

  /** The request for `text`: the configured voice in the URL, the key in the header, the text in the body. */
  function SpeechRequest(svc: DeepgramService, text: string): (r: TtsRequest)
    ensures ReadUrl(r.url) == Some((SpeakEndpoint, [Param("model", Config.TtsModel)]))
    ensures ReadToken(r.authorization) == Some(svc.apiKey)
    ensures ReadTextBody(r.body) == Some(text)
    ensures r.httpMethod == "POST" && r.contentType == "application/json"
  {
    assert Config.TtsModel == "aura-asteria-en";
    SpeakUrlRoundTrip(Config.TtsModel);
    ReadTokenOf(svc.apiKey);
    TextBodyRoundTrip(text);
    TtsRequest(SpeakUrl(Config.TtsModel), "POST", AuthorizationHeader(svc.apiKey), "application/json", TextBody(text))
  }

  /** The error thrown for a response that is not OK. */
  function TtsErrorMessage(status: nat, body: string): string {
    "TTS API error: " + NatToString(status) + " - " + body
  }

  /** The length of the run of digits `s` starts with. */
  function DigitRun(s: string): (k: nat)
    ensures k <= |s| && AllDigits(s[..k])
    ensures k < |s| ==> !('0' <= s[k] <= '9')
  {
    if s == [] || !('0' <= s[0] <= '9') then 0
    else
      var k := DigitRun(s[1..]);
      assert s[..k + 1] == [s[0]] + s[1..][..k];
      k + 1
  }

  lemma DigitRunStops(digits: string, rest: string)
    requires AllDigits(digits) && rest != [] && !('0' <= rest[0] <= '9')
    ensures DigitRun(digits + rest) == |digits|
  {
    var s := digits + rest;
    assert s[|digits|] == rest[0];
  }

  /** The status and body an error message reports. */
  function ReadTtsError(msg: string): Option<(nat, string)> {
    if |msg| >= 15 && msg[..15] == "TTS API error: " then
      var rest := msg[15..];
      var k := DigitRun(rest);
      if k > 0 && k + 3 <= |rest| && rest[k..k + 3] == " - "
      then Some((ParseNat(rest[..k]), rest[k + 3..]))
      else None
    else None
  }

  /** The status and body can be read back from the error message, whatever the body holds. */
  lemma TtsErrorRoundTrip(status: nat, body: string)
    ensures ReadTtsError(TtsErrorMessage(status, body)) == Some((status, body))
  {
    var digits := NatToString(status);
    var msg := TtsErrorMessage(status, body);
    assert msg[..15] == "TTS API error: ";
    var rest := msg[15..];
    assert rest == digits + (" - " + body);
    DigitRunStops(digits, " - " + body);
    assert rest[..|digits|] == digits;
    assert rest[|digits|..|digits| + 3] == " - ";
    assert rest[|digits| + 3..] == body;
    ParseNatToString(status);
  }

  /** What `fetch` resolved with: the status, and the body read as text or as a blob. */
  datatype HttpResponse = HttpResponse(status: nat, text: string, blob: seq<bv8>)
  {
    /** `response.ok`. */
    predicate Ok() {
      200 <= status <= 299
    }
  }

  /**
   * `textToSpeech(text)` given what `fetch` produced: a rejected fetch is rethrown unchanged,
   * an OK response yields its blob, and any other response fails with its status and text.
   */
  function TextToSpeech(response: Result<HttpResponse>): (r: Result<seq<bv8>>)
    ensures response.Err? ==> r == Err(response.error)
    ensures response.Ok? && response.value.Ok() ==> r == Ok(response.value.blob)
    ensures response.Ok? && !response.value.Ok() ==>
      r.Err? && ReadTtsError(r.error) == Some((response.value.status, response.value.text))
  {
    match response
    case Err(e) => Err(e)
    case Ok(resp) =>
      if resp.Ok() then Ok(resp.blob)
      else
        TtsErrorRoundTrip(resp.status, resp.text);
        Err(TtsErrorMessage(resp.status, resp.text))
  }
}
