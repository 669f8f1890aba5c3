# Chat front-end core: text cleaning, reply normalisation, conversation turns

This project models the logic of `streamlit_app.py`, a Streamlit chat front-end
for an AI backend, leaving out its rendering. Three pieces are modelled, one
module each:

- `TextClean`: `clean_display_text`. It runs three steps in order:
  `re.sub(r' +', ' ', …)`, then `re.sub(r'\n\s*\n\s*\n+', '\n\n', …)`, then
  `.strip()`. Each step is a function over `string`. Whitespace is one explicit
  predicate, `IsWs`, over the ASCII set space, tab, line feed, carriage return,
  vertical tab and form feed. It stands for both the regex class `\s` and the
  characters `str.strip()` removes.
  - The first regex replaces every maximal run of spaces with one space
    (`CollapseSpaces`).
  - The second regex matches leftmost, without overlap, with greedy quantifiers
    that backtrack. A match can only start at the first line feed of a maximal
    whitespace run. The first `\s*` backs off to the run's second-to-last line
    feed. The second `\s*` backs off to its last line feed. So a match exists
    exactly when the run holds three line feeds or more. The match then covers
    the span from the run's first to its last line feed, and that span becomes
    `"\n\n"`. Whitespace before the first and after the last line feed stays.
    `ShortenRun` is this effect on one run; `ShortenBlankRuns` applies it to
    every run.
- `Gateway`: `send_message`. The HTTP exchange is a datatype: a transport
  failure with its message, or a response with status, parsed body and raw
  text. The body keeps only the keys the code reads: `response`, `model_used`
  and `detail`. The network is a function parameter `post` from the payload to
  that datatype. The result is the displayed string, or the exception that
  escapes. It comes with the `last_response_info` record written on the way.
- `Conversation`: the turn and clear logic of `main`. A `Session` class holds
  `messages`, the two settings and the last debug record. A separate method
  builds the history with a loop.

Three behaviours of the program are worth noting, and the model keeps them:
- The source does not validate or clamp `max_tokens` and `temperature`. Only the
  slider widgets bound them.
- The transcript does not always alternate. When `send_message` raises, the
  user entry stays without an assistant entry.
- The history is built but never sent: the payload has only `message`,
  `temperature` and `max_tokens`.

Session ids, sources, suggestions, timestamps and feedback belong to the other
front-end variant. That variant's code is not part of this model.

## Model

| member | source | states |
|---|---|---|
| `TextClean.CleanDisplayText` | streamlit_app.py:79-96 | The empty text comes back unchanged. No result starts or ends with whitespace. No result is longer than its input. |
| `TextClean.CleanDisplayTextNoDoubleSpace` | streamlit_app.py:88-94 | A cleaned text never has two adjacent spaces. The later steps cannot re-create one, because `"\n\n"` starts and ends with a line feed. |
| `TextClean.CleanDisplayTextNoBlankTriple` | streamlit_app.py:91-94 | No whitespace stretch of a cleaned text holds three line feeds. Equivalently, every maximal whitespace run has at most two. |
| `TextClean.CleanDisplayTextKeepsNonWs` | streamlit_app.py:88-94 | Cleaning keeps every non-whitespace character, in the same order. |
| `TextClean.CleanDisplayTextIdempotent` | streamlit_app.py:88-94 | Cleaning a cleaned text changes nothing: `clean(clean(s)) == clean(s)`. |
| `TextClean.CleanDisplayTextOfClean` | streamlit_app.py:79-96 | A non-empty text with non-whitespace ends, no two adjacent spaces and no stretch of three line feeds is left unchanged. |
| `TextClean.CleanDisplayTextInnerRun` | streamlit_app.py:84-94 | Cleaning works run by run. For any text with a whitespace run between two non-whitespace characters, that run is kept as its collapsed, shortened form, and the text on either side is cleaned on its own. The outer ends of the text may hold whitespace. So spaces between words and paragraph breaks survive. |
| `TextClean.CollapsedRunShape` | streamlit_app.py:84-91 | After the first two steps, a whitespace run is still whitespace and non-empty when it was. It holds as many line feeds as before, capped at two. |
| `TextClean.CollapseSpaces` | streamlit_app.py:88 | The result has no two adjacent spaces. It is never longer than the input. Its first character is the input's first character. |
| `TextClean.CollapseSpacesRemovesOnlySpaces` | streamlit_app.py:88 | Collapsing removes only spaces. Every other character survives, in order. |
| `TextClean.CollapseSpacesFixpoint` | streamlit_app.py:88 | Collapsing leaves a text unchanged if and only if it has no two adjacent spaces. |
| `TextClean.CollapseSpacesDropsRepeat` | streamlit_app.py:87-88 | Two adjacent spaces collapse exactly as one space does, wherever they stand. So a run of spaces leaves one space, not none. |
| `TextClean.CollapseSpacesConcat` | streamlit_app.py:88 | Collapsing works piece by piece across any seam where two spaces do not meet. |
| `TextClean.CollapseSpacesOfRun` | streamlit_app.py:88 | A run of spaces of any length becomes a single space. |
| `TextClean.CollapseSpacesKeepsNewlines` | streamlit_app.py:88 | Collapsing keeps every line feed. |
| `TextClean.ShortenRun` | streamlit_app.py:91 | A run with fewer than three line feeds is left as it is. A run with three or more ends up with exactly two. The result is whitespace when the run is, and never longer. |
| `TextClean.ShortenRunKeepsLead` | streamlit_app.py:91 | When a run is rewritten, its first line feed stays where it was and the whitespace before it is unchanged. |
| `TextClean.ShortenRunKeepsTail` | streamlit_app.py:91 | When a run is rewritten, the span from its first to its last line feed becomes exactly `"\n\n"`, at the place of the first line feed. What follows is the whitespace after the last line feed, unchanged and free of line feeds. |
| `TextClean.ShortenBlankRuns` | streamlit_app.py:91 | The whole-text substitution is never longer than its input. A text that starts with non-whitespace keeps that first character. |
| `TextClean.ShortenBlankRunsLeavesNoTriple` | streamlit_app.py:91 | After the substitution, no whitespace stretch holds three line feeds. |
| `TextClean.ShortenBlankRunsKeepsNoDoubleSpace` | streamlit_app.py:91 | The substitution never creates two adjacent spaces. |
| `TextClean.ShortenBlankRunsKeepsNonWs` | streamlit_app.py:91 | The substitution rewrites only whitespace. The other characters survive, in order. |
| `TextClean.ShortenBlankRunsKeepsShortRuns` | streamlit_app.py:91 | A text whose runs all have at most two line feeds is left as it is. |
| `TextClean.ShortenBlankRunsFixpoint` | streamlit_app.py:91 | The substitution leaves a text unchanged if and only if no whitespace stretch holds three line feeds. |
| `TextClean.ShortenBlankRunsConcat` | streamlit_app.py:91 | The substitution works piece by piece across any seam where two whitespace characters do not meet. |
| `TextClean.ShortenBlankRunsInnerRun` | streamlit_app.py:90-91 | Each maximal whitespace run is rewritten on its own, whatever else the text holds. A run with at most two line feeds stays unchanged even next to a long run, and no run disappears. |
| `TextClean.Strip` | streamlit_app.py:94 | The result is what follows the leading whitespace run, up to a whitespace-only tail. It starts and ends with non-whitespace. It is empty exactly when the input is all whitespace. |
| `TextClean.StripFixpoint` | streamlit_app.py:94 | Stripping leaves a text unchanged if and only if it is empty or starts and ends with non-whitespace. |
| `TextClean.StripUnique` | streamlit_app.py:94 | Any split of a text into a whitespace prefix, a middle with non-whitespace ends, and a whitespace suffix strips to exactly that middle. |
| `TextClean.StripAroundInnerRun` | streamlit_app.py:94 | Stripping removes only the outer whitespace. A whitespace run between two non-whitespace characters stays, whatever surrounds the text. |
| `TextClean.StripKeepsNonWs` | streamlit_app.py:94 | Stripping keeps every non-whitespace character, in order. |
| `Gateway.BuildPayload` | streamlit_app.py:101-110 | The payload carries the prompt as `message`. It carries the stored `max_tokens` and `temperature`, or 8192 and 0.7 when unset. It has no other field. |
| `Gateway.SendMessage` | streamlit_app.py:98-145 | An exception escapes exactly when the answer is a 200 whose body is not a JSON object. The debug record is written exactly on a 200 whose body is an object. It holds the temperature and max tokens the request was made with, or the defaults. |
| `Gateway.SendMessageIgnoresHistory` | streamlit_app.py:98-116 | The history argument changes neither the request nor the reply. |
| `Gateway.HandleExchange` | streamlit_app.py:118-145 | A transport failure gives `"❌ Connection error: " + msg`. A non-200 status gives `"❌ Error: " + str(status) + " - " + detail`. On 200 with an object body: a missing or empty `response` gives `"❌ No response from AI model"`, anything else gives the field stripped. On 200 the debug record holds the raw reply's length, `model_used` (default `"unknown"`), temperature and max tokens. A 200 body that is not a JSON object raises. |
| `Gateway.HandleExchangeRaisesOnlyOnMalformedSuccess` | streamlit_app.py:118-145 | An exception escapes if and only if the status is 200 and the body is not a JSON object. Every other case comes back as a string. |
| `Gateway.ErrorDetail` | streamlit_app.py:135-141 | The detail is the body's `detail` value when the body is a JSON object that has that key. Otherwise it is the raw response text. |
| `Gateway.ReplyText` | streamlit_app.py:120-132 | A missing or empty reply field gives `"❌ No response from AI model"`; any other field gives that field stripped. |
| `Gateway.ReplyTextWhitespaceOnly` | streamlit_app.py:132 | A reply field that is present and only whitespace shows as the empty text. |
| `Gateway.ReplyTextTrimmed` | streamlit_app.py:132 | A non-empty reply field shows with no whitespace at either end. Its non-whitespace characters are kept in order. |
| `Gateway.NatToString` | streamlit_app.py:142 | `str(status_code)`: non-empty decimal digits, one digit exactly below 10, no leading zero except for 0 itself. |
| `Gateway.NatToStringRoundTrip` | streamlit_app.py:142 | Reading the decimal rendering of the status code back gives the code. |
| `Gateway.ErrorMessage` | streamlit_app.py:142 | The HTTP error text starts with `"❌ Error: "` and a digit, and ends with the detail. |
| `Gateway.ConnectionErrorMessage` | streamlit_app.py:144-145 | The connection-error text is `"❌ Connection error: "` followed by exactly the failure's message. |
| `Gateway.ErrorMessageRoundTrip` | streamlit_app.py:142 | The HTTP error string can be read back into exactly its status code and detail. |
| `Gateway.ConnectionErrorIsNotHttpError` | streamlit_app.py:144-145 | A connection-error string is never read as an HTTP error string. |
| `Conversation.History` | streamlit_app.py:238-243 | The history has one entry per transcript entry. |
| `Conversation.BuildHistory` | streamlit_app.py:238-243 | The loop builds exactly `History(entries)`: one entry per message, in order. |
| `Conversation.HistoryFaithful` | streamlit_app.py:238-243 | The history has the same length, order and contents as its input. `"user"` stays `"user"`, every other role becomes `"assistant"`. A transcript with only those two roles comes back unchanged. |
| `Conversation.Session.constructor` | streamlit_app.py:213-215 | A new session starts with an empty transcript, no stored settings and no debug record. |
| `Conversation.Session.ApplySettings` | streamlit_app.py:176-177 | Storing the slider values sets both settings and changes nothing else. |
| `Conversation.Session.Clear` | streamlit_app.py:180-182 | Clearing empties the transcript and leaves the settings and the debug record untouched. |
| `Conversation.Session.Submit` | streamlit_app.py:229-257 | An empty prompt changes nothing. Otherwise the history passed on is the transcript before the prompt. The transcript grows by `{user, prompt}` then `{assistant, reply}`, with earlier entries untouched; it grows by the user entry alone when `send_message` raises. The debug record is replaced exactly when one was written. Settings are untouched. |
| `Conversation.Session.Record` | streamlit_app.py:251-257 | With the answer of `send_message`: a reply is appended as the assistant entry, and an exception appends nothing. The debug record is replaced exactly when one was written. The settings are untouched. |

## Left out

- Page config, CSS, headers, the sidebar layout, chat bubbles, the spinner and the `st.rerun`/`st.stop` control flow: rendering only.
- `check_backend_health` and the `requests.get`/`requests.post` calls with their timeouts: network I/O. The answer of the POST is the `post` parameter.
- `API_BASE_URL` from the environment: configuration only.
- Temperature as a floating-point value, and the slider bounds and steps: the temperature is an opaque value passed through, and the widgets belong to Streamlit.
- Gateway.HandleExchange: a 200 body that does not parse as JSON is modelled as the exception `JsonDecodeError` leaving the reply code. Some `requests` versions make that exception a `RequestException`, which turns it into the connection-error string. That depends on the installed version and is not modelled.
- Gateway.HandleExchange: the reply field is an optional string, and other JSON values are not represented. A `null`, number or boolean `response` makes `len(...)` raise `TypeError`. A list or object value passes `len(...)`, so the debug record is written. It then gives the placeholder when it is empty and raises `AttributeError` at `.strip()` when it is not.
- Gateway.ErrorDetail: `detail` and `model_used` are held as text that is already rendered. The rendering of non-string JSON values by `str()` is not modelled.
- TextClean.IsWs: the whitespace set is ASCII. Python's `\s` and `str.isspace` also accept other Unicode whitespace, such as `\x1c`–`\x1f`, `\x85` and `\xa0`.
- TextClean.CleanDisplayText: Python lets `text` be `None` and returns it; the model takes only strings.
- The script re-runs on every interaction. `Session.Submit` is one run that receives a chat input. Displaying the transcript between runs is rendering.
