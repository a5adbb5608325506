# Session recorder and local overrides of a mitmproxy add-on

`proxy-session-controller.py` is a mitmproxy add-on used to test mobile apps
against a backend. While a recording session is active it captures every
request/response pair whose host is not on a noise list, and it can answer
chosen URLs with the contents of a local JSON file instead of the backend. A
small HTTP control server on localhost drives it: `/start_recording`,
`/stop_recording` (which saves the session as a JSON document),
`/map_local/enable` and `/map_local/disable`.

This project models that core in Dafny:

- `host_filter.dfy`, module `HostFilter`: the noise list and `_is_ignored`, a
  substring test on the lower-cased network location, with substring search
  proved against the definition "occurs at some index".
- `flows.dfy`, module `Flows`: flows, `try_parse_json` as decode-or-identity,
  the records a session is saved as, and the specification `Records` of the
  save loop.
- `recorder.dfy`, module `Session`: class `Recorder` with the fields
  `recording`, `flows` and `output_filename`, one method per callback, and the
  save loop as a `for` loop proved against `Records`. The pure
  `AfterResponse`/`AfterResponses` functions give the effect of response
  callbacks on the recorder's state, and lemmas close over whole sessions.
- `control_server.dfy`, module `Control`: the override table `map_local` as a
  field of class `ControlServer`, the enable/disable commands as functions on
  the table, and `do_POST` as a method routing on the path.
- `scenarios.dfy`, module `Scenarios`: client code running whole sessions
  (named session, empty session, override, rejected enable, disable) whose
  assertions follow from the contracts alone.

Inputs from outside the script are parameters: the request path and its
decoded body (`Payload`), the network location of a flow (`HttpRequest.netloc`),
the outcome of reading an override file (`readFile` returns `Contents`,
`NotFound` or `ReadFailed`), and the text and JSON decoders (`Codec`). The
source's mitmproxy flow object becomes the datatype `Flow`; the request
callback returns the flow it would leave behind. When the handler raises,
the reply is `Raised`: the server writes no response and drops the
connection.

Points of the source's behaviour worth knowing:

- A body that is not JSON at all makes `read_body` raise before anything is
  assigned, so nothing changes and no reply is sent.
- A `/start_recording` body that is JSON but not an object (a list, a string,
  `null`) gets further: `recording` is set and the buffer emptied, then
  `payload.get` raises, so the file name stays as it was and no reply is sent.
- As written, both map commands raise `NameError` (lines 147 and 159, see
  "## Findings") and the table never changes. The next points describe the
  intended commands, which read the body with `read_body` as the other routes
  do; `Control.Enable` and `Control.Disable` model them:
  - a body that is JSON but not an object raises before the table is touched;
  - disable clears the whole table whenever `url` is not a key. The comment at
    line 166 speaks of "no URL is provided", but a `url` that is given and not
    mapped clears the table too. A disable request with an empty body raises,
    since `json.loads` of an empty string fails;
  - a 400 from enable has the fixed message `Missing 'url' or 'file_path'`,
    whichever field is missing.
- `try_parse_json` tries to decode every body, whatever its content type.
- Overrides are only applied while recording: the request callback does
  nothing when `recording` is false.

## Model

| member | source | states |
|---|---|---|
| `HostFilter.Lower` | proxy-session-controller.py:40 | `.lower()`: same length, no upper-case ASCII letter left, other characters kept, each upper-case letter mapped to its lower-case one |
| `HostFilter.IsIgnored` | proxy-session-controller.py:35-41 | a flow is ignored iff some entry of the noise list is a substring of its lower-cased network location |
| `HostFilter.Contains` | proxy-session-controller.py:41 | the `in` test on strings: true iff the needle occurs at some index of the host |
| `HostFilter.AnyContained` | proxy-session-controller.py:41 | `any(...)` over the list: true iff some entry occurs in the host |
| `HostFilter.IgnoreIsCaseInsensitive` | proxy-session-controller.py:40 | a network location and its lower-cased form are filtered alike |
| `HostFilter.IgnoredWithin` | proxy-session-controller.py:41 | matching is containment: any location that contains an ignored one is ignored too |
| `HostFilter.PlayServicesIgnored` | proxy-session-controller.py:14 | `play.googleapis.com` is ignored (it contains `googleapis.com`) |
| `HostFilter.LookalikeHostIgnored` | proxy-session-controller.py:25 | containment over-matches: `notapple.com.example` is ignored through `apple.com` |
| `HostFilter.EmulatorHostRecorded` | proxy-session-controller.py:10-33 | `10.0.2.2` is not ignored: every entry is longer than it |
| `Flows.TryParseJson` | proxy-session-controller.py:51-55 | the result is the decoded document when decoding succeeds, and the content itself, unchanged, exactly when it fails |
| `Flows.RecordOf` | proxy-session-controller.py:94-112 | the record of a flow copies method, URL and request headers, status code and response headers, and each body is `TryParseJson` of that message's text, so the decoded document when decoding succeeds and the text itself exactly when it fails |
| `Flows.AnsweredMembers` | proxy-session-controller.py:92-93 | the flows the save loop keeps are exactly the buffered flows that have a response |
| `Flows.AnsweredAppend` | proxy-session-controller.py:92-93 | the kept flows keep their buffer order: filtering a concatenation concatenates the filtered parts |
| `Flows.RecordsMatchAnswered` | proxy-session-controller.py:91-112 | the saved document has one record per answered flow, in order, each copying method, URL and request headers and the status code and response headers |
| `Flows.RecordsAppend` | proxy-session-controller.py:91-112 | the document of a concatenated buffer is the concatenation of the documents |
| `Flows.NoRecordsIffNoResponses` | proxy-session-controller.py:91-114 | the saved document is empty iff no buffered flow has a response |
| `Flows.SaveAsWritten` | proxy-session-controller.py:97-98 | as written, saving raises iff some buffered flow has a response, and otherwise writes the empty document |
| `Flows.SaveAsWrittenLosesSession` | proxy-session-controller.py:97-98 | one answered flow already makes the save raise as written, while the intended document holds its record |
| `Session.LocalResponse` | proxy-session-controller.py:72-76 | the synthesized response has status 200, the file's bytes as content and the single header `Content-Type: application/json` |
| `Session.VisibleMembers` | proxy-session-controller.py:81 | a delivered flow passes the filter iff its host is not ignored |
| `Session.ResponsesWhileRecording` | proxy-session-controller.py:80-82 | while recording, a run of response callbacks appends exactly the unfiltered flows, in delivery order, and changes nothing else |
| `Session.ResponsesWhileStopped` | proxy-session-controller.py:80-82 | while not recording, response callbacks change nothing |
| `Session.ResponsesOnlyGrow` | proxy-session-controller.py:80-82 | response callbacks only extend the buffer and keep the flag and file name |
| `Session.ResponsesKeepOnlyVisible` | proxy-session-controller.py:80-82 | a buffer holding no filtered flow keeps holding none after any run of response callbacks |
| `Session.SessionSavesVisibleAnswered` | proxy-session-controller.py:80-112 | a freshly started session saves the records of the unfiltered flows in delivery order; a flow reaches the document iff it was delivered, is not filtered and has a response |
| `Session.Recorder.constructor` | proxy-session-controller.py:58-61 | a new recorder is not recording, has an empty buffer and the file name `flows.json` |
| `Session.Recorder.Request` | proxy-session-controller.py:63-78 | no change unless recording, unfiltered and the exact URL is mapped; then a readable file gives status 200, its bytes and `Content-Type: application/json`, a missing file leaves the flow as it was, another read error raises; the request is never changed |
| `Session.Recorder.Response` | proxy-session-controller.py:80-82 | the flow is appended at the end of the buffer iff recording and not filtered; otherwise nothing changes |
| `Session.Recorder.SaveFlowsAsJson` | proxy-session-controller.py:84-114 | the loop builds exactly the document `Records` of the buffer |
| `Control.Route` | proxy-session-controller.py:126-171 | each of the four commands is chosen by exactly its own path; every other path is unknown |
| `Control.Given` | proxy-session-controller.py:134 | `fields.get(key)` is truthy iff the field is present and not the empty string |
| `Control.OutputFilename` | proxy-session-controller.py:134-135 | the file name is the given non-empty name plus `.json`, else `flows.json` |
| `Control.Enable` | proxy-session-controller.py:146-157 | with non-empty `url` and `file_path` the entry for `url` is inserted or replaced, every other entry kept, reply 200; otherwise 400 and the table unchanged |
| `Control.Disable` | proxy-session-controller.py:158-170 | a mapped `url` is removed and every other entry kept; otherwise the whole table is cleared; reply 200 either way |
| `Control.EnableThenDisable` | proxy-session-controller.py:150-161 | mapping an unmapped URL and then unmapping it restores the table |
| `Control.EnableThenLookup` | proxy-session-controller.py:150 | after an accepted enable the URL maps to the path and every other key is as before |
| `Control.DisableWithoutUrlClears` | proxy-session-controller.py:165-167 | disable without `url` empties any table |
| `Control.MapLocalAsWritten` | proxy-session-controller.py:147-159 | as written, both map commands raise before touching the table |
| `Control.EnableAsWrittenAddsNothing` | proxy-session-controller.py:147 | as written, an enable with both fields leaves the table empty, where the intended command adds the entry |
| `Control.DisableAsWrittenRemovesNothing` | proxy-session-controller.py:159 | as written, a disable of a mapped URL keeps it, where the intended command removes it; the table it starts from cannot arise as written, since `map_local` starts empty at line 118 and enable always raises at line 147 |
| `Control.ControlServer.constructor` | proxy-session-controller.py:116-118 | the server shares the given recorder and starts with an empty override table |
| `Control.ControlServer.DoPost` | proxy-session-controller.py:125-173 | start resets the buffer, sets recording and the file name; stop clears recording and returns the saved document under the old file name; enable/disable update the table as `Enable`/`Disable`; a start or map-command body that is not JSON raises with no change; a start body that is JSON but not an object sets recording and empties the buffer, keeps the file name, then raises; a map command with a non-object body raises with no change; any other path gets 404 with no change |

## Findings

| source | as written | input that shows it | evidently intended | confidence | as-written member | corrected member |
|---|---|---|---|---|---|---|
| proxy-session-controller.py:147 | the enable branch reads `data`, a name never defined in `do_POST`, so it raises `NameError` | POST `/map_local/enable` with `{"url": "https://api.example.com/v1", "file_path": "/tmp/mock.json"}` | read the body with `read_body()` and insert the mapping | high (not executed) | `Control.MapLocalAsWritten`, `Control.EnableAsWrittenAddsNothing` | `Control.Enable` |
| proxy-session-controller.py:159 | the disable branch reads the same undefined `data` and raises `NameError` | any POST `/map_local/disable`, for example with `{"url": "https://api.example.com/v1"}` | read the body and remove the entry (or clear the table) | high (not executed) | `Control.MapLocalAsWritten`, `Control.DisableAsWrittenRemovesNothing` | `Control.Disable` |
| proxy-session-controller.py:97-98 | `try_parse_json` takes one argument but is called with two, so the save loop raises `TypeError` at the first flow with a response and no file is written | `/stop_recording` after one flow with a response was captured | decode the body text alone, as the one-argument definition at line 51 does, which the model follows; a decoder that also looks at the headers (for example at `Content-Type`) is the other plausible intent | high (not executed) | `Flows.SaveAsWritten`, `Flows.SaveAsWrittenLosesSession` | `Session.Recorder.SaveFlowsAsJson` |

## Left out

- The HTTP control server, `read_body` (Content-Length, UTF-8 and JSON decoding) and writing responses: network I/O. `DoPost` receives the path and the decoded body; a body that is not JSON is `NotJson`, JSON that is not an object is `NotObject`. Body fields are modelled as strings only, so a non-string `name` (which the source would format into the file name) is not covered.
- `urlparse` of the control path and of the flow URL: library calls. The path is taken as already parsed and the network location of a flow as a field of `HttpRequest`, not derived from its URL.
- Threads and the daemon control thread: concurrency. The source shares the recorder and the table between threads without a lock; the model runs commands and callbacks one at a time.
- `open`/`read` of the override file, `os.makedirs` and `json.dump`: file I/O. The read is the `readFile` parameter; saving returns the document and the file name it would be written to, so a failure to write the file is not modelled.
- `json.loads` and `get_text`: library calls, given as the `Codec` functions. `getText` receives the message's headers and bytes, so the text may depend on the charset named in its own Content-Type, as in mitmproxy; how the charset is chosen is not modelled. `get_text` is taken to succeed on every body.
- mitmproxy's `Response.make`: the synthesized response carries the headers the script passes; headers mitmproxy adds itself (such as a content length) are not modelled. Headers are a map, so repeated header fields are not modelled.
- `ctx.log` and the log messages: logging only.
- `log_safe`: as written it calls itself on the main thread and recurses until Python raises `RecursionError`. Dropping it removes that failure: when the request callback runs on the main thread, the call at line 66 raises before the override lookup, so as written no override would ever be applied there. Which thread mitmproxy runs the callback on is not part of this model.
- `RecorderAddon`: it only wires the recorder into the server and forwards the two callbacks; its own `map_local` field is never used.
- Aliasing of flows: the source appends the mitmproxy flow object itself, so a later change to that object would show in the saved session; the model captures the flow's value at the response callback.
- Unicode case mapping: `HostFilter.Lower` lower-cases ASCII letters only, where Python's `str.lower` also maps other Unicode letters.
