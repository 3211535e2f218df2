/** The payload helpers of the read-only mail client (services/gmail.py):
    finding a MIME part, choosing and truncating a message body, and
    reading headers with defaults. The API calls are not modelled;
    base64url decoding and the HTML tag stripper are parameters. */
module Gmail {
  import opened Base
  import opened Text

  /** One header line. */
  datatype Header = Header(name: string, value: string)

  /** A MIME part as the API returns it: `mimeType`, `body.data`, nested
      `parts`, and (on the top-level payload) `headers`; absent keys are
      `None` or empty. */
  datatype Part = Part(mimeType: Option<string>, data: Option<string>, parts: seq<Part>, headers: seq<Header>)

  /** The payload `{}` that stands in for a missing one. */
  const NoPayload := Part(None, None, [], [])

  /** A message resource: its id, its payload and its snippet. */
  datatype MailMessage = MailMessage(id: Option<string>, payload: Option<Part>, snippet: Option<string>)

  /** `_get_message_summary`'s result. */
  datatype Summary = Summary(id: string, subject: string, from: string, date: string, snippet: string)

  /** `_parse_message`'s result. */
  datatype Parsed = Parsed(id: string, subject: string, from: string, to: string, date: string,
                           body: string, snippet: string)

  /** `urlsafe_b64decode(data).decode("utf-8", errors="replace")`, or
      `None` where decoding raises. */
  type Decoder = string -> Option<string>

  /** `_strip_html`. */
  type Stripper = string -> string

  /** Present and non-empty: Python's truthiness of a string value. */
  predicate Truthy(s: Option<string>) {
    s.Some? && s.value != ""
  }

  // ---- Part search ----

  /** A part that `_find_part` stops at: the wanted type, with data. */
  predicate Hit(p: Part, target: string) {
    p.mimeType == Some(target) && Truthy(p.data)
  }

  /** `_find_part`: the data of the first hit, looking at each part before
      the parts nested in it and those before the part's later siblings. */
  function FindPart(parts: seq<Part>, target: string): (r: Option<string>)
    ensures r.Some? ==> r.value != ""
    decreases parts
  {
    if |parts| == 0 then None
    else
      var p := parts[0];
      if Hit(p, target) then p.data
      else
        assert p in parts;
        var found := if |p.parts| > 0 then FindPart(p.parts, target) else None;
        if found.Some? then found else FindPart(parts[1..], target)
  }

  /** Every part of a forest, each before the parts nested in it (depth-first pre-order). */
  function PreOrder(parts: seq<Part>): seq<Part>
    decreases parts
  {
    if |parts| == 0 then []
    else
      assert parts[0] in parts;
      [parts[0]] + PreOrder(parts[0].parts) + PreOrder(parts[1..])
  }

  /** The data of the first hit in a list of parts. */
  function FirstHit(ps: seq<Part>, target: string): (r: Option<string>)
    ensures r.None? <==> forall i :: 0 <= i < |ps| ==> !Hit(ps[i], target)
    ensures r.Some? ==> exists i :: 0 <= i < |ps| && Hit(ps[i], target) && ps[i].data == r
                                    && forall j :: 0 <= j < i ==> !Hit(ps[j], target)
  {
    if |ps| == 0 then None
    else if Hit(ps[0], target) then ps[0].data
    else
      var r := FirstHit(ps[1..], target);
      assert forall i :: 1 <= i < |ps| ==> ps[i] == ps[1..][i - 1];
      r
  }

  lemma {:induction false} FirstHitAppend(a: seq<Part>, b: seq<Part>, target: string)
    ensures FirstHit(a + b, target) == if FirstHit(a, target).Some? then FirstHit(a, target) else FirstHit(b, target)
    decreases |a|
  {
    if |a| == 0 {
      assert a + b == b;
    } else {
      assert (a + b)[1..] == a[1..] + b;
      FirstHitAppend(a[1..], b, target);
    }
  }

  /** `_find_part` finds exactly the first hit in depth-first pre-order. */
  lemma {:induction false} FindPartIsPreOrderFirst(parts: seq<Part>, target: string)
    ensures FindPart(parts, target) == FirstHit(PreOrder(parts), target)
    decreases parts
  {
    if |parts| > 0 {
      var p := parts[0];
      assert p in parts;
      FindPartIsPreOrderFirst(p.parts, target);
      FindPartIsPreOrderFirst(parts[1..], target);
      FirstHitAppend([p] + PreOrder(p.parts), PreOrder(parts[1..]), target);
      FirstHitAppend([p], PreOrder(p.parts), target);
    }
  }

  // ---- Body extraction ----

  /** `s[:n]` for a Python slice bound `n`, which counts from the end when negative. */
  function Truncate(s: string, n: int): (r: string)
    ensures StartsWith(s, r)
    ensures n >= 0 ==> |r| == if |s| <= n then |s| else n
    ensures n < 0 ==> |r| == if |s| + n <= 0 then 0 else |s| + n
  {
    var k := if n >= 0 then (if |s| <= n then |s| else n) else (if |s| + n <= 0 then 0 else |s| + n);
    s[..k]
  }

  /** `_decode_body`: the decoded text, or "" where decoding fails. */
  function DecodeBody(data: string, decode: Decoder): (r: string)
    ensures decode(data).None? ==> r == ""
    ensures decode(data).Some? ==> r == decode(data).value
  {
    if decode(data).Some? then decode(data).value else ""
  }

  /** `_extract_body`: top-level plain text, else the first nested plain
      part, else the first nested HTML part with tags stripped, else the
      top-level data of any type, else ""; cut to `maxLength`. */
  function ExtractBody(payload: Part, maxLength: int, decode: Decoder, strip: Stripper): (r: string)
    ensures maxLength >= 0 ==> |r| <= maxLength
  {
    var mime := payload.mimeType.GetOr("");
    var plain := FindPart(payload.parts, "text/plain");
    var html := FindPart(payload.parts, "text/html");
    if Truthy(payload.data) && mime == "text/plain" then Truncate(DecodeBody(payload.data.value, decode), maxLength)
    else if plain.Some? then Truncate(DecodeBody(plain.value, decode), maxLength)
    else if html.Some? then Truncate(strip(DecodeBody(html.value, decode)), maxLength)
    else if Truthy(payload.data) then Truncate(DecodeBody(payload.data.value, decode), maxLength)
    else ""
  }

  /** The body is the text of the source the priority order picks, cut to
      `maxLength`, with nested parts searched in pre-order. */
  lemma BodySource(payload: Part, maxLength: int, decode: Decoder, strip: Stripper)
    ensures var r := ExtractBody(payload, maxLength, decode, strip);
            var plain := FirstHit(PreOrder(payload.parts), "text/plain");
            var html := FirstHit(PreOrder(payload.parts), "text/html");
            var top := Truthy(payload.data);
            && (top && payload.mimeType == Some("text/plain") ==> r == Truncate(DecodeBody(payload.data.value, decode), maxLength))
            && (!(top && payload.mimeType == Some("text/plain")) && plain.Some? ==>
                  r == Truncate(DecodeBody(plain.value, decode), maxLength))
            && (!(top && payload.mimeType == Some("text/plain")) && plain.None? && html.Some? ==>
                  r == Truncate(strip(DecodeBody(html.value, decode)), maxLength))
            && (!(top && payload.mimeType == Some("text/plain")) && plain.None? && html.None? && top ==>
                  r == Truncate(DecodeBody(payload.data.value, decode), maxLength))
            && (!top && plain.None? && html.None? ==> r == "")
  {
    FindPartIsPreOrderFirst(payload.parts, "text/plain");
    FindPartIsPreOrderFirst(payload.parts, "text/html");
  }

  /** A payload with nothing in it has an empty body. */
  lemma EmptyPayloadEmptyBody(maxLength: int, decode: Decoder, strip: Stripper)
    ensures ExtractBody(NoPayload, maxLength, decode, strip) == ""
  {
  }

  // ---- Headers ----

  /** `{h["name"]: h["value"] for h in headers}`: later headers overwrite earlier ones. */
  function HeaderMap(hs: seq<Header>): (m: map<string, string>)
    ensures forall n :: n in m <==> exists i :: 0 <= i < |hs| && hs[i].name == n
    decreases |hs|
  {
    if |hs| == 0 then map[]
    else
      var init := hs[..|hs| - 1];
      var m := HeaderMap(init);
      assert forall i :: 0 <= i < |init| ==> hs[i] == init[i];
      m[hs[|hs| - 1].name := hs[|hs| - 1].value]
  }

  /** Among headers of the same name, the last one wins. */
  lemma {:induction false} LastHeaderWins(hs: seq<Header>, i: nat)
    requires i < |hs| && forall j :: i < j < |hs| ==> hs[j].name != hs[i].name
    ensures HeaderMap(hs)[hs[i].name] == hs[i].value
    decreases |hs|
  {
    if i < |hs| - 1 {
      var init := hs[..|hs| - 1];
      assert init[i] == hs[i];
      LastHeaderWins(init, i);
    }
  }

  /** `headers.get(name, default)`. */
  function HeaderOr(hs: seq<Header>, name: string, default: string): (r: string)
    ensures (forall i :: 0 <= i < |hs| ==> hs[i].name != name) ==> r == default
  {
    var m := HeaderMap(hs);
    if name in m then m[name] else default
  }

  /** `_get_message_summary` for a fetched message: the requested id, the
      three headers with their defaults, and the snippet or "". */
  function Summarize(messageId: string, msg: MailMessage): (r: Summary)
    ensures r.id == messageId
    ensures var hs := msg.payload.GetOr(NoPayload).headers;
            && r.subject == HeaderOr(hs, "Subject", "(no subject)")
            && r.from == HeaderOr(hs, "From", "unknown")
            && r.date == HeaderOr(hs, "Date", "")
    ensures r.snippet == msg.snippet.GetOr("")
  {
    var hs := msg.payload.GetOr(NoPayload).headers;
    Summary(messageId, HeaderOr(hs, "Subject", "(no subject)"), HeaderOr(hs, "From", "unknown"),
            HeaderOr(hs, "Date", ""), msg.snippet.GetOr(""))
  }

  /** `_parse_message`: headers with their defaults and the extracted body
      (3000 characters at most); a message without an id raises. */
  function ParseMessage(msg: MailMessage, decode: Decoder, strip: Stripper): (r: Result<Parsed>)
    ensures r.Err? <==> msg.id.None?
    ensures r.Err? ==> r.error == MissingKey("id")
    ensures r.Ok? ==> r.value.id == msg.id.value && |r.value.body| <= 3000
    ensures r.Ok? ==>
              var hs := msg.payload.GetOr(NoPayload).headers;
              && r.value.subject == HeaderOr(hs, "Subject", "(no subject)")
              && r.value.from == HeaderOr(hs, "From", "unknown")
              && r.value.to == HeaderOr(hs, "To", "")
              && r.value.date == HeaderOr(hs, "Date", "")
              && r.value.body == ExtractBody(msg.payload.GetOr(NoPayload), 3000, decode, strip)
              && r.value.snippet == msg.snippet.GetOr("")
  {
    var payload := msg.payload.GetOr(NoPayload);
    var hs := payload.headers;
    var body := ExtractBody(payload, 3000, decode, strip);
    if msg.id.None? then Err(MissingKey("id"))
    else Ok(Parsed(msg.id.value, HeaderOr(hs, "Subject", "(no subject)"), HeaderOr(hs, "From", "unknown"),
                   HeaderOr(hs, "To", ""), HeaderOr(hs, "Date", ""), body, msg.snippet.GetOr("")))
  }

  /** A message with no headers gets every default. */
  lemma MissingHeadersDefault(msg: MailMessage, decode: Decoder, strip: Stripper)
    requires msg.id.Some? && msg.payload.GetOr(NoPayload).headers == []
    ensures var r := ParseMessage(msg, decode, strip).value;
            r.subject == "(no subject)" && r.from == "unknown" && r.to == "" && r.date == ""
  {
  }
}
