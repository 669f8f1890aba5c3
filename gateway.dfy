/** `send_message`: the outbound payload and the normalisation of the
    backend's answer (or of a transport failure) into the text shown as the
    assistant's reply.

    The HTTP exchange itself is a parameter: `post` maps the payload to what
    the network returned, so the model says nothing about how that answer
    came about. */
module Gateway {
  import opened Wrappers
  import TextClean

  const DefaultMaxTokens: int := 8192
  const DefaultTemperature: Temperature := Temperature("0.7")
  const DefaultModel: string := "unknown"

  const NoResponse: string := "\U{274C} No response from AI model"
  const ErrorPrefix: string := "\U{274C} Error: "
  const StatusSeparator: string := " - "
  const ConnectionErrorPrefix: string := "\U{274C} Connection error: "

  /** One chat entry, `{"role": ..., "content": ...}`. */
  datatype Message = Message(role: string, content: string)

  /** The sampling temperature, passed through without interpretation; it is
      kept as the decimal literal of the value. */
  datatype Temperature = Temperature(literal: string)

  /** The two session-state keys read by `send_message`; either may be unset. */
  datatype Settings = Settings(maxTokens: Option<int>, temperature: Option<Temperature>)

  /** The JSON body posted to the chat endpoint: these three keys and no others. */
  datatype Payload = Payload(message: string, temperature: Temperature, maxTokens: int)

  /** What `response.json()` yields, reduced to the keys that are consulted.
      Each present value is held as its text (`str(value)` for `detail`). */
  datatype Body =
    | Unparsable
    | NonObject
    | Object(response: Option<string>, modelUsed: Option<string>, detail: Option<string>)

  /** What the network returned for the POST. */
  datatype Exchange =
    | TransportFailure(reason: string)
    | Response(status: nat, body: Body, text: string)

  /** Exceptions that leave `send_message` instead of becoming a string. */
  datatype Exception = JsonDecodeError | AttributeError

  datatype Outcome = Displayed(text: string) | Raised(error: Exception)

  /** The record stored under `last_response_info` after a successful reply. */
  datatype ResponseInfo = ResponseInfo(length: nat, model: string, temp: Temperature, maxTokens: int)

  /** What `send_message` returns, with its write to session state. */
  datatype Sent = Sent(outcome: Outcome, info: Option<ResponseInfo>)

  // ---------------------------------------------------------------------------
  // Request

  /** The payload for `prompt`, with the session's settings or their defaults. */
  function BuildPayload(prompt: string, settings: Settings): (p: Payload)
    ensures p.message == prompt
    ensures settings.maxTokens.None? ==> p.maxTokens == DefaultMaxTokens
    ensures settings.maxTokens.Some? ==> p.maxTokens == settings.maxTokens.value
    ensures settings.temperature.None? ==> p.temperature == DefaultTemperature
    ensures settings.temperature.Some? ==> p.temperature == settings.temperature.value
  {
    Payload(prompt, settings.temperature.GetOr(DefaultTemperature), settings.maxTokens.GetOr(DefaultMaxTokens))
  }

  // ---------------------------------------------------------------------------
  // Decimal rendering of the status code

  predicate IsDigit(c: char) {
    '0' <= c <= '9'
  }

  predicate AllDigits(s: string) {
    forall i | 0 <= i < |s| :: IsDigit(s[i])
  }

  function DigitChar(d: nat): (c: char)
    requires d < 10
    ensures IsDigit(c)
  {
    ('0' as int + d) as char
  }

  function DigitValue(c: char): nat {
    if IsDigit(c) then c as int - '0' as int else 0
  }

  /** `str(n)` for a non-negative integer. */
  function NatToString(n: nat): (r: string)
    ensures r != [] && AllDigits(r)
    ensures |r| == 1 <==> n < 10
    ensures r[0] == '0' ==> n == 0
  {
    if n < 10 then [DigitChar(n)] else NatToString(n / 10) + [DigitChar(n % 10)]
  }

  /** The value of a string of decimal digits. */
  function DigitsValue(s: string): nat {
    if s == [] then 0 else DigitsValue(s[..|s| - 1]) * 10 + DigitValue(s[|s| - 1])
  }

  /** Reading the decimal rendering back gives the number. */
  lemma {:induction false} NatToStringRoundTrip(n: nat)
    ensures DigitsValue(NatToString(n)) == n
  {
    if n >= 10 {
      var s := NatToString(n);
      assert s[..|s| - 1] == NatToString(n / 10);
      NatToStringRoundTrip(n / 10);
    }
  }

  // ---------------------------------------------------------------------------
  // Response

  /** The reply text on status 200, from the body's `response` key. */
  function ReplyText(field: Option<string>): (r: string)
    ensures field.None? || field == Some([]) ==> r == NoResponse
    ensures field.Some? && field.value != [] ==> r == TextClean.Strip(field.value)
  {
    var raw := field.GetOr(NoResponse);
    TextClean.StripFixpoint(NoResponse);
    if raw != [] then TextClean.Strip(raw) else NoResponse
  }

  /** The detail shown for a non-200 status: the body's `detail` (as text)
      when the body is a JSON object that has it, otherwise the raw body. */
  function ErrorDetail(body: Body, text: string): (d: string)
    ensures body.Object? && body.detail.Some? ==> d == body.detail.value
    ensures !(body.Object? && body.detail.Some?) ==> d == text
  {
    if body.Object? && body.detail.Some? then body.detail.value else text
  }

  /** The text shown for a status other than 200. */
  function ErrorMessage(status: nat, detail: string): (t: string)
    ensures |t| > |ErrorPrefix| + |StatusSeparator| + |detail|
    ensures t[..|ErrorPrefix|] == ErrorPrefix && IsDigit(t[|ErrorPrefix|])
    ensures t[|t| - |detail|..] == detail
  {
    ErrorPrefix + NatToString(status) + StatusSeparator + detail
  }

  /** The text shown when the request itself failed. */
  function ConnectionErrorMessage(reason: string): (t: string)
    ensures |t| == |ConnectionErrorPrefix| + |reason|
    ensures t[..|ConnectionErrorPrefix|] == ConnectionErrorPrefix && t[|ConnectionErrorPrefix|..] == reason
  {
    ConnectionErrorPrefix + reason
  }

  /** Maps what the network returned to what `send_message` returns. */
  function HandleExchange(ex: Exchange, payload: Payload): (sent: Sent)
    // a transport failure is shown as a connection error
    ensures ex.TransportFailure? ==>
              sent == Sent(Displayed(ConnectionErrorPrefix + ex.reason), None)
    // any status but 200 is shown with its code and the best detail available
    ensures ex.Response? && ex.status != 200 ==>
              sent == Sent(Displayed(ErrorPrefix + NatToString(ex.status) + StatusSeparator
                                     + ErrorDetail(ex.body, ex.text)), None)
    // on 200 a missing or empty reply field is shown as the placeholder ...
    ensures ex.Response? && ex.status == 200 && ex.body.Object?
            && (ex.body.response.None? || ex.body.response == Some([])) ==>
              sent.outcome == Displayed(NoResponse)
    // ... and any other reply field is shown stripped
    ensures ex.Response? && ex.status == 200 && ex.body.Object?
            && ex.body.response.Some? && ex.body.response.value != [] ==>
              sent.outcome == Displayed(TextClean.Strip(ex.body.response.value))
    // the debug record is written exactly on a 200 whose body is an object
    ensures ex.Response? && ex.status == 200 && ex.body.Object? ==>
              sent.info == Some(ResponseInfo(|ex.body.response.GetOr(NoResponse)|,
                                             ex.body.modelUsed.GetOr(DefaultModel),
                                             payload.temperature, payload.maxTokens))
    // a 200 whose body is not a JSON object raises
    ensures ex.Response? && ex.status == 200 && ex.body.Unparsable? ==> sent == Sent(Raised(JsonDecodeError), None)
    ensures ex.Response? && ex.status == 200 && ex.body.NonObject? ==> sent == Sent(Raised(AttributeError), None)
  {
    match ex
    case TransportFailure(reason) => Sent(Displayed(ConnectionErrorMessage(reason)), None)
    case Response(status, body, text) =>
      if status == 200 then
        match body
        case Unparsable => Sent(Raised(JsonDecodeError), None)
        case NonObject => Sent(Raised(AttributeError), None)
        case Object(response, modelUsed, _) =>
          var raw := response.GetOr(NoResponse);
          var info := ResponseInfo(|raw|, modelUsed.GetOr(DefaultModel), payload.temperature, payload.maxTokens);
          Sent(Displayed(ReplyText(response)), Some(info))
      else
        Sent(Displayed(ErrorMessage(status, ErrorDetail(body, text))), None)
  }

  /** One call of `send_message`: build the payload, post it, shape the answer.
      The conversation history is accepted and not sent. */
  function SendMessage(prompt: string, history: seq<Message>, settings: Settings,
                       post: Payload -> Exchange): (sent: Sent)
    // an exception escapes exactly on a 200 whose body is not a JSON object
    ensures var ex := post(BuildPayload(prompt, settings));
            sent.outcome.Raised? <==> ex.Response? && ex.status == 200 && !ex.body.Object?
    // the debug record is written exactly on a 200 whose body is an object,
    // and it holds the settings the request was made with
    ensures var ex := post(BuildPayload(prompt, settings));
            sent.info.Some? <==> ex.Response? && ex.status == 200 && ex.body.Object?
    ensures sent.info.Some? ==>
              sent.info.value.temp == settings.temperature.GetOr(DefaultTemperature)
              && sent.info.value.maxTokens == settings.maxTokens.GetOr(DefaultMaxTokens)
  {
    var payload := BuildPayload(prompt, settings);
    HandleExchange(post(payload), payload)
  }

  // ---------------------------------------------------------------------------
  // Properties

  /** The history argument has no influence on the request or the reply. */
  lemma SendMessageIgnoresHistory(prompt: string, h1: seq<Message>, h2: seq<Message>,
                                  settings: Settings, post: Payload -> Exchange)
    ensures SendMessage(prompt, h1, settings, post) == SendMessage(prompt, h2, settings, post)
  {
  }

  /** Nothing escapes as an exception except on a status-200 answer whose
      body is not a JSON object. */
  lemma HandleExchangeRaisesOnlyOnMalformedSuccess(ex: Exchange, payload: Payload)
    ensures HandleExchange(ex, payload).outcome.Raised? <==>
              ex.Response? && ex.status == 200 && !ex.body.Object?
  {
  }

  /** On status 200 a reply field that is present but only whitespace shows
      as the empty text. */
  lemma ReplyTextWhitespaceOnly(field: string)
    requires field != [] && TextClean.AllWs(field)
    ensures ReplyText(Some(field)) == []
  {
  }

  /** On status 200 a non-empty reply field is shown trimmed: no whitespace
      at either end, every other character kept in order. */
  lemma ReplyTextTrimmed(field: string)
    requires field != []
    ensures var r := ReplyText(Some(field));
            (r == [] || (!TextClean.IsWs(r[0]) && !TextClean.IsWs(r[|r| - 1])))
            && TextClean.NonWs(r) == TextClean.NonWs(field)
  {
    TextClean.StripKeepsNonWs(field);
  }

  /** The report recovered from a displayed error string. */
  datatype ErrorReport = ErrorReport(status: nat, detail: string)

  function LeadingDigits(s: string): (n: nat)
    ensures n <= |s| && AllDigits(s[..n])
    ensures n < |s| ==> !IsDigit(s[n])
  {
    if s != [] && IsDigit(s[0]) then
      var m := LeadingDigits(s[1..]);
      assert s[..1 + m] == [s[0]] + s[1..][..m];
      1 + m
    else 0
  }

  /** Reads a displayed HTTP error string back into status and detail. */
  function ParseErrorMessage(t: string): Option<ErrorReport> {
    if |t| < |ErrorPrefix| || t[..|ErrorPrefix|] != ErrorPrefix then None
    else
      var rest := t[|ErrorPrefix|..];
      var k := LeadingDigits(rest);
      if k == 0 || |rest| < k + |StatusSeparator| || rest[k..k + |StatusSeparator|] != StatusSeparator then None
      else Some(ErrorReport(DigitsValue(rest[..k]), rest[k + |StatusSeparator|..]))
  }

  lemma {:induction false} LeadingDigitsOfConcat(a: string, b: string)
    requires AllDigits(a) && b != [] && !IsDigit(b[0])
    ensures LeadingDigits(a + b) == |a|
  {
    if a == [] {
      assert a + b == b;
    } else {
      assert (a + b)[1..] == a[1..] + b;
      LeadingDigitsOfConcat(a[1..], b);
    }
  }

  /** The HTTP error string determines the status code and the detail. */
  lemma ErrorMessageRoundTrip(status: nat, detail: string)
    ensures ParseErrorMessage(ErrorMessage(status, detail)) == Some(ErrorReport(status, detail))
  {
    var digits := NatToString(status);
    var t := ErrorMessage(status, detail);
    assert t == ErrorPrefix + (digits + StatusSeparator + detail);
    var rest := t[|ErrorPrefix|..];
    assert rest == digits + (StatusSeparator + detail);
    LeadingDigitsOfConcat(digits, StatusSeparator + detail);
    assert rest[..|digits|] == digits;
    assert rest[|digits|..|digits| + |StatusSeparator|] == StatusSeparator;
    assert rest[|digits| + |StatusSeparator|..] == detail;
    NatToStringRoundTrip(status);
  }

  /** A connection-error string is never read as an HTTP error string. */
  lemma ConnectionErrorIsNotHttpError(reason: string)
    ensures ParseErrorMessage(ConnectionErrorMessage(reason)).None?
  {
    var t := ConnectionErrorMessage(reason);
    assert t[2] == 'C' && ErrorPrefix[2] == 'E';
    assert t[..|ErrorPrefix|][2] == 'C';
  }
}
