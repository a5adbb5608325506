/**
 * Flows as the interception engine hands them to the recorder, and the
 * records a finished session is saved as.
 */
module Flows {
  import opened Wrappers

  newtype byte = x: int | 0 <= x < 256

  /** A header mapping as `dict(message.headers)` sees it. */
  type Headers = map<string, string>

  /** The request side of a flow: `verb` is the HTTP method, `netloc` the network location of `url`. */
  datatype HttpRequest = HttpRequest(verb: string, url: string, netloc: string, headers: Headers, content: seq<byte>)

  datatype HttpResponse = HttpResponse(statusCode: int, headers: Headers, content: seq<byte>)

  /** One intercepted exchange; `response` is absent until one was observed or synthesized. */
  datatype Flow = Flow(request: HttpRequest, response: Option<HttpResponse>)

  /**
   * The two library conversions a record needs: the text of a message body
   * (`get_text`, which picks the charset from the message's own headers) and
   * JSON decoding (`json.loads`), which may fail.
   */
  datatype Codec<J> = Codec(getText: (Headers, seq<byte>) -> string, parseJson: string -> Option<J>)

  /** A record body: the decoded document, or the text itself when it is not JSON. */
  datatype Body<J> = Parsed(value: J) | Raw(text: string)

  datatype RequestRecord<J> = RequestRecord(verb: string, url: string, headers: Headers, body: Body<J>)
  datatype ResponseRecord<J> = ResponseRecord(statusCode: int, headers: Headers, body: Body<J>)
  datatype Record<J> = Record(request: RequestRecord<J>, response: ResponseRecord<J>)

  /** `try_parse_json`: decode the content, or give the content back unchanged. */
  function TryParseJson<J>(content: string, parseJson: string -> Option<J>): (r: Body<J>)
    ensures r.Raw? <==> parseJson(content).None?
    ensures r.Raw? ==> r.text == content
    ensures r.Parsed? ==> parseJson(content) == Some(r.value)
  {
    match parseJson(content)
    case Some(doc) => Parsed(doc)
    case None => Raw(content)
  }

  /** The record saved for one flow that has a response. */
  function RecordOf<J>(f: Flow, codec: Codec<J>): (r: Record<J>)
    requires f.response.Some?
    ensures r.request.verb == f.request.verb && r.request.url == f.request.url
    ensures r.request.headers == f.request.headers
    ensures r.response.statusCode == f.response.value.statusCode
    ensures r.response.headers == f.response.value.headers
    ensures r.request.body == TryParseJson(codec.getText(f.request.headers, f.request.content), codec.parseJson)
    ensures r.response.body ==
      TryParseJson(codec.getText(f.response.value.headers, f.response.value.content), codec.parseJson)
  {
    var res := f.response.value;
    Record(
      RequestRecord(f.request.verb, f.request.url, f.request.headers,
                    TryParseJson(codec.getText(f.request.headers, f.request.content), codec.parseJson)),
      ResponseRecord(res.statusCode, res.headers,
                     TryParseJson(codec.getText(res.headers, res.content), codec.parseJson)))
  }

  /** The flows of `fs` that have a response, in their order. */
  function Answered(fs: seq<Flow>): seq<Flow> {
    if fs == [] then []
    else
      var last := fs[|fs| - 1];
      Answered(fs[..|fs| - 1]) + (if last.response.Some? then [last] else [])
  }

  /** The document a session with buffer `fs` is saved as: one record per answered flow. */
  function Records<J>(fs: seq<Flow>, codec: Codec<J>): seq<Record<J>> {
    if fs == [] then []
    else
      var last := fs[|fs| - 1];
      Records(fs[..|fs| - 1], codec) + (if last.response.Some? then [RecordOf(last, codec)] else [])
  }

  /** A flow is kept by `Answered` exactly when it is in `fs` and has a response. */
  lemma {:induction false} AnsweredMembers(fs: seq<Flow>, f: Flow)
    ensures f in Answered(fs) <==> f in fs && f.response.Some?
  {
    if fs != [] {
      var init := fs[..|fs| - 1];
      AnsweredMembers(init, f);
      assert fs == init + [fs[|fs| - 1]];
    }
  }

  /** What `Answered` keeps of a concatenation is what it keeps of each part. */
  lemma {:induction false} AnsweredAppend(a: seq<Flow>, b: seq<Flow>)
    ensures Answered(a + b) == Answered(a) + Answered(b)
  {
    if b != [] {
      var init := b[..|b| - 1];
      assert (a + b)[..|a + b| - 1] == a + init;
      AnsweredAppend(a, init);
    } else {
      assert a + b == a;
    }
  }

  /**
   * The saved records are, in order, the records of the answered flows; each
   * copies the method, URL and headers of the request and the status code and
   * headers of the response.
   */
  lemma {:induction false} RecordsMatchAnswered<J>(fs: seq<Flow>, codec: Codec<J>)
    ensures |Records(fs, codec)| == |Answered(fs)|
    ensures forall k :: 0 <= k < |Answered(fs)| ==> Answered(fs)[k].response.Some?
    ensures forall k :: 0 <= k < |Answered(fs)| ==>
      var f, r := Answered(fs)[k], Records(fs, codec)[k];
      && r == RecordOf(f, codec)
      && r.request.verb == f.request.verb
      && r.request.url == f.request.url
      && r.request.headers == f.request.headers
      && r.response.statusCode == f.response.value.statusCode
      && r.response.headers == f.response.value.headers
  {
    if fs != [] {
      RecordsMatchAnswered(fs[..|fs| - 1], codec);
    }
  }

  /** Saving a concatenation of buffers gives the concatenation of their documents. */
  lemma {:induction false} RecordsAppend<J>(a: seq<Flow>, b: seq<Flow>, codec: Codec<J>)
    ensures Records(a + b, codec) == Records(a, codec) + Records(b, codec)
  {
    if b != [] {
      var init := b[..|b| - 1];
      assert (a + b)[..|a + b| - 1] == a + init;
      RecordsAppend(a, init, codec);
    } else {
      assert a + b == a;
    }
  }

  /** The document is empty exactly when no flow of the buffer has a response. */
  lemma {:induction false} NoRecordsIffNoResponses<J>(fs: seq<Flow>, codec: Codec<J>)
    ensures Records(fs, codec) == [] <==> forall k :: 0 <= k < |fs| ==> fs[k].response.None?
  {
    if fs != [] {
      var init := fs[..|fs| - 1];
      NoRecordsIffNoResponses(init, codec);
      assert forall k :: 0 <= k < |init| ==> init[k] == fs[k];
    }
  }

  /** What saving a buffer does as written: it raises before anything is written, or writes this document. */
  datatype SaveOutcome<J> = Saved(records: seq<Record<J>>) | SaveRaised

  /**
   * The save loop as written: it calls `try_parse_json` with two arguments, a
   * call that raises a `TypeError` at the first flow with a response, so the
   * only document it ever writes is the empty one.
   */
  function SaveAsWritten<J>(fs: seq<Flow>, codec: Codec<J>): (r: SaveOutcome<J>)
    ensures r.SaveRaised? <==> exists k :: 0 <= k < |fs| && fs[k].response.Some?
    ensures r.Saved? ==> r.records == []
  {
    if fs == [] then Saved([])
    else if fs[0].response.Some? then SaveRaised
    else
      var r := SaveAsWritten(fs[1..], codec);
      assert forall k :: 1 <= k < |fs| ==> fs[k] == fs[1..][k - 1];
      r
  }

  /** A single answered flow already loses the session as written, while its intended document has one record. */
  lemma SaveAsWrittenLosesSession<J>(f: Flow, codec: Codec<J>)
    requires f.response.Some?
    ensures SaveAsWritten([f], codec) == SaveRaised
    ensures Records([f], codec) == [RecordOf(f, codec)]
  {
    assert [f][..0] == [];
  }
}
