/**
 * Client code driving the recorder and the control handler through whole
 * sessions; each assertion follows from the contracts alone.
 */
module Scenarios {
  import opened Wrappers
  import opened Flows
  import opened HostFilter
  import opened Session
  import opened Control

  /** A codec under which no body is JSON. */
  function TextOnly(): Codec<int> {
    Codec((h, b) => "", s => None)
  }

  function AppFlow(): Flow {
    Flow(HttpRequest("GET", "http://10.0.2.2/api/items", "10.0.2.2", map[], []), Some(HttpResponse(200, map[], [])))
  }

  function PlayFlow(): Flow {
    Flow(HttpRequest("POST", "https://play.googleapis.com/log", "play.googleapis.com", map[], []), Some(HttpResponse(204, map[], [])))
  }

  /**
   * Start as "s1", observe a recorded flow and a filtered one, stop: "s1.json"
   * holds the record of the recorded flow only.
   */
  method NamedSessionSavesUnfilteredFlows(app: Flow, play: Flow)
    requires app.response.Some? && !IsIgnored(app.request.netloc) && IsIgnored(play.request.netloc)
  {
    var recorder := new Recorder();
    var server := new ControlServer(recorder);
    var reply, written := server.DoPost("/start_recording", Object(map["name" := "s1"]), TextOnly());
    assert reply == Sent(200, "Recording started as s1.json");
    recorder.Response(app);
    recorder.Response(play);
    assert recorder.flows == [app];
    assert recorder.outputFilename == "s1.json";
    reply, written := server.DoPost("/stop_recording", NotJson, TextOnly());
    assert [app][..0] == [];
    assert Records([app], TextOnly()) == Records([], TextOnly()) + [RecordOf(app, TextOnly())];
    assert Records([], TextOnly()) == [];
    assert Records([app], TextOnly()) == [RecordOf(app, TextOnly())];
    assert written == Some(Artifact("s1.json", [RecordOf(app, TextOnly())]));
    assert !recorder.recording;
  }

  /** The same session with an emulator flow and a Google Play flow. */
  method EmulatorAndPlaySession() {
    EmulatorHostRecorded();
    PlayServicesIgnored();
    NamedSessionSavesUnfilteredFlows(AppFlow(), PlayFlow());
  }

  /** A session stopped before any response saves the empty document under the default name. */
  method EmptySessionSavesEmptyDocument() {
    var recorder := new Recorder();
    var server := new ControlServer(recorder);
    var reply, written := server.DoPost("/start_recording", Object(map[]), TextOnly());
    reply, written := server.DoPost("/stop_recording", NotJson, TextOnly());
    assert written == Some(Artifact("flows.json", []));
  }

  /** A mapped URL is answered from the file while recording, and the flow keeps its request. */
  method OverrideAnswersFromFile() {
    var recorder := new Recorder();
    var server := new ControlServer(recorder);
    var url := "http://10.0.2.2/api/items";
    var reply, written := server.DoPost("/map_local/enable",
      Object(map["url" := url, "file_path" := "/tmp/mock.json"]), TextOnly());
    assert reply == Sent(200, "Mapping added");
    reply, written := server.DoPost("/start_recording", Object(map[]), TextOnly());
    EmulatorHostRecorded();
    var request := Flow(AppFlow().request, None);
    var contents: seq<byte> := [123, 125];
    var answered, raised := recorder.Request(request, server.mapLocal, p => if p == "/tmp/mock.json" then Contents(contents) else NotFound);
    assert answered.response == Some(HttpResponse(200, map["Content-Type" := "application/json"], contents));
    assert !raised;
  }

  /**
   * A start whose body is JSON but not an object raises, yet only after it
   * switched recording on and emptied the buffer; the file name stays.
   */
  method StartWithNonObjectBodyHalfStarts(app: Flow)
    requires !IsIgnored(app.request.netloc)
  {
    var recorder := new Recorder();
    var server := new ControlServer(recorder);
    var reply, written := server.DoPost("/start_recording", Object(map["name" := "s1"]), TextOnly());
    recorder.Response(app);
    reply, written := server.DoPost("/stop_recording", NotJson, TextOnly());
    assert recorder.flows == [app] && !recorder.recording;
    reply, written := server.DoPost("/start_recording", NotObject, TextOnly());
    assert reply == Raised;
    assert recorder.recording && recorder.flows == [] && recorder.outputFilename == "s1.json";
  }

  /** Enabling without `file_path` is refused with 400 and leaves the table empty. */
  method EnableWithoutFileIsRejected() {
    var recorder := new Recorder();
    var server := new ControlServer(recorder);
    var reply, written := server.DoPost("/map_local/enable", Object(map["url" := "x"]), TextOnly());
    assert reply == Sent(400, "Missing 'url' or 'file_path'");
    assert server.mapLocal == map[];
  }

  /** Disabling one URL of two keeps the other; disabling an unknown URL clears the table. */
  method DisableRemovesOneOrClearsAll() {
    var recorder := new Recorder();
    var server := new ControlServer(recorder);
    var reply, written := server.DoPost("/map_local/enable", Object(map["url" := "a", "file_path" := "/a.json"]), TextOnly());
    reply, written := server.DoPost("/map_local/enable", Object(map["url" := "b", "file_path" := "/b.json"]), TextOnly());
    reply, written := server.DoPost("/map_local/disable", Object(map["url" := "a"]), TextOnly());
    assert reply == Sent(200, "Mapping removed");
    assert server.mapLocal == map["b" := "/b.json"];
    reply, written := server.DoPost("/map_local/disable", Object(map["url" := "c"]), TextOnly());
    assert reply == Sent(200, "All mappings cleared");
    assert server.mapLocal == map[];
    reply, written := server.DoPost("/unknown", NotJson, TextOnly());
    assert reply == Sent(404, "");
  }
}
