/**
 * The recorder shared by the proxy callbacks and the control handler: the
 * recording flag, the buffer of captured flows and the name of the file the
 * session is saved to. This module holds class `Recorder`, the source's
 * `Recorder`, together with the functions that specify its session state.
 */
module Session {
  import opened Wrappers
  import opened Flows
  import opened HostFilter

  /** The value of a recorder's three fields. */
  datatype SessionState = SessionState(recording: bool, flows: seq<Flow>, outputFilename: string)

  /** The file a session is saved to when no name was given. */
  const DefaultFilename: string := "flows.json"

  /** The outcome of reading an override file. */
  datatype ReadResult = Contents(data: seq<byte>) | NotFound | ReadFailed

  /** The response a mapped URL is answered with: status 200, the file's bytes, a JSON content type. */
  function LocalResponse(data: seq<byte>): (r: HttpResponse)
    ensures r.statusCode == 200 && r.content == data
    ensures r.headers.Keys == {"Content-Type"} && r.headers["Content-Type"] == "application/json"
  {
    HttpResponse(200, map["Content-Type" := "application/json"], data)
  }

  /** The effect of the response callback on the recorder's state. */
  function AfterResponse(s: SessionState, flow: Flow): SessionState {
    if s.recording && !IsIgnored(flow.request.netloc) then s.(flows := s.flows + [flow]) else s
  }

  /** The response callback delivered for each of `fs`, in order. */
  function AfterResponses(s: SessionState, fs: seq<Flow>): SessionState {
    if fs == [] then s else AfterResponse(AfterResponses(s, fs[..|fs| - 1]), fs[|fs| - 1])
  }

  /** The flows of `fs` that the host filter lets through, in order. */
  function Visible(fs: seq<Flow>): seq<Flow> {
    if fs == [] then []
    else
      var last := fs[|fs| - 1];
      Visible(fs[..|fs| - 1]) + (if IsIgnored(last.request.netloc) then [] else [last])
  }

  /** A flow is kept by `Visible` exactly when it is in `fs` and its host is not filtered. */
  lemma {:induction false} VisibleMembers(fs: seq<Flow>, f: Flow)
    ensures f in Visible(fs) <==> f in fs && !IsIgnored(f.request.netloc)
  {
    if fs != [] {
      var init := fs[..|fs| - 1];
      VisibleMembers(init, f);
      assert fs == init + [fs[|fs| - 1]];
    }
  }

  /**
   * While recording, delivering responses appends exactly the unfiltered
   * flows to the buffer, in delivery order; nothing else changes.
   */
  lemma {:induction false} ResponsesWhileRecording(s: SessionState, fs: seq<Flow>)
    requires s.recording
    ensures AfterResponses(s, fs) == s.(flows := s.flows + Visible(fs))
  {
    if fs != [] {
      ResponsesWhileRecording(s, fs[..|fs| - 1]);
    }
  }

  /** While not recording, responses leave the recorder's state as it was. */
  lemma {:induction false} ResponsesWhileStopped(s: SessionState, fs: seq<Flow>)
    requires !s.recording
    ensures AfterResponses(s, fs) == s
  {
    if fs != [] {
      ResponsesWhileStopped(s, fs[..|fs| - 1]);
    }
  }

  /** The buffer only grows: the old buffer is a prefix of the new one. */
  lemma {:induction false} ResponsesOnlyGrow(s: SessionState, fs: seq<Flow>)
    ensures s.flows <= AfterResponses(s, fs).flows
    ensures AfterResponses(s, fs).recording == s.recording
    ensures AfterResponses(s, fs).outputFilename == s.outputFilename
  {
    if fs != [] {
      ResponsesOnlyGrow(s, fs[..|fs| - 1]);
    }
  }

  /** No flow of the buffer is filtered. */
  ghost predicate OnlyVisible(s: SessionState) {
    forall k :: 0 <= k < |s.flows| ==> !IsIgnored(s.flows[k].request.netloc)
  }

  /** Response callbacks never put a filtered flow into the buffer. */
  lemma {:induction false} ResponsesKeepOnlyVisible(s: SessionState, fs: seq<Flow>)
    requires OnlyVisible(s)
    ensures OnlyVisible(AfterResponses(s, fs))
  {
    if fs != [] {
      ResponsesKeepOnlyVisible(s, fs[..|fs| - 1]);
    }
  }

  /**
   * A session started afresh and fed the responses `fs` saves, in order, one
   * record per unfiltered flow that has a response; a filtered flow never
   * reaches the document.
   */
  lemma SessionSavesVisibleAnswered<J>(name: string, fs: seq<Flow>, codec: Codec<J>, f: Flow)
    ensures AfterResponses(SessionState(true, [], name), fs).flows == Visible(fs)
    ensures Records(AfterResponses(SessionState(true, [], name), fs).flows, codec) == Records(Visible(fs), codec)
    ensures f in Answered(AfterResponses(SessionState(true, [], name), fs).flows) <==>
      f in fs && !IsIgnored(f.request.netloc) && f.response.Some?
  {
    ResponsesWhileRecording(SessionState(true, [], name), fs);
    assert [] + Visible(fs) == Visible(fs);
    AnsweredMembers(Visible(fs), f);
    VisibleMembers(fs, f);
  }

  class Recorder {
    var recording: bool
    var flows: seq<Flow>
    var outputFilename: string

    /** The recorder's fields as one value. */
    function State(): SessionState
      reads this
    {
      SessionState(recording, flows, outputFilename)
    }

    /** A new recorder is idle, with an empty buffer and the default file name. */
    constructor ()
      ensures State() == SessionState(false, [], DefaultFilename)
    {
      recording := false;
      flows := [];
      outputFilename := DefaultFilename;
    }

    /**
     * The request callback. While recording, a flow to an unfiltered host
     * whose exact URL is a key of `mapLocal` is answered with the mapped
     * file; `readFile` is the outcome of reading a path. Returns the flow as
     * it leaves the callback and whether the callback raised (a read error
     * other than a missing file).
     */
    method Request(flow: Flow, mapLocal: map<string, string>, readFile: string -> ReadResult)
      returns (r: Flow, raised: bool)
      ensures r.request == flow.request
      ensures !recording || IsIgnored(flow.request.netloc) || flow.request.url !in mapLocal ==>
        r == flow && !raised
      ensures recording && !IsIgnored(flow.request.netloc) && flow.request.url in mapLocal ==>
        var read := readFile(mapLocal[flow.request.url]);
        && (read.Contents? ==> r == flow.(response := Some(LocalResponse(read.data))))
        && (!read.Contents? ==> r == flow)
        && (raised <==> read.ReadFailed?)
    {
      r, raised := flow, false;
      if recording && !IsIgnored(flow.request.netloc) {
        var url := flow.request.url;
        if url in mapLocal {
          var filePath := mapLocal[url];
          match readFile(filePath)
          case Contents(data) =>
            r := flow.(response := Some(LocalResponse(data)));
          case NotFound =>
          case ReadFailed =>
            raised := true;
        }
      }
    }

    /** The response callback: capture the flow while recording, unless its host is filtered. */
    method Response(flow: Flow)
      modifies this
      ensures State() == AfterResponse(old(State()), flow)
    {
      if recording && !IsIgnored(flow.request.netloc) {
        flows := flows + [flow];
      }
    }

    /** The records `save_flows_as_json` writes, built by walking the buffer in order. */
    method SaveFlowsAsJson<J>(codec: Codec<J>) returns (data: seq<Record<J>>)
      ensures data == Records(flows, codec)
    {
      data := [];
      for i := 0 to |flows|
        invariant data == Records(flows[..i], codec)
      {
        var flow := flows[i];
        assert flows[..i + 1][..i] == flows[..i];
        if flow.response.Some? {
          data := data + [RecordOf(flow, codec)];
        }
      }
      assert flows[..|flows|] == flows;
    }
  }
}
