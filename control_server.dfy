/**
 * The control handler: POST commands that start and stop a recording session
 * and edit the table of URL overrides (`map_local`).
 */
module Control {
  import opened Wrappers
  import opened Flows
  import opened Session

  /**
   * A request body as `read_body` sees it: not JSON at all (`json.loads`
   * raises), JSON that is not an object (a list, a string, `null`: the later
   * `.get` raises), or an object with string fields.
   */
  datatype Payload = NotJson | NotObject | Object(fields: map<string, string>)

  /**
   * What the handler sends back: a status with its message, or nothing because
   * the handler raised (the server then closes the connection).
   */
  datatype Reply = Sent(status: nat, message: string) | Raised

  /** The override table after a map command, and the reply to it. */
  datatype TableUpdate = TableUpdate(table: map<string, string>, reply: Reply)

  /** A saved session: the file name and the document written to it. */
  datatype Artifact<J> = Artifact(filename: string, records: seq<Record<J>>)

  /** The commands the handler knows, and the path each is posted to. */
  datatype Command = StartRecording | StopRecording | MapLocalEnable | MapLocalDisable | Unknown

  function Route(path: string): (c: Command)
    ensures c == StartRecording <==> path == "/start_recording"
    ensures c == StopRecording <==> path == "/stop_recording"
    ensures c == MapLocalEnable <==> path == "/map_local/enable"
    ensures c == MapLocalDisable <==> path == "/map_local/disable"
  {
    if path == "/start_recording" then StartRecording
    else if path == "/stop_recording" then StopRecording
    else if path == "/map_local/enable" then MapLocalEnable
    else if path == "/map_local/disable" then MapLocalDisable
    else Unknown
  }

  /** `fields.get(key)` is truthy: the field is present and not the empty string. */
  function Given(fields: map<string, string>, key: string): (r: bool)
    ensures r ==> key in fields && |fields[key]| > 0
    ensures key in fields && |fields[key]| > 0 ==> r
  {
    key in fields && fields[key] != ""
  }

  /** The file a session started with body `fields` is saved to. */
  function OutputFilename(fields: map<string, string>): (name: string)
    ensures Given(fields, "name") ==> name == fields["name"] + ".json"
    ensures !Given(fields, "name") ==> name == DefaultFilename
  {
    (if Given(fields, "name") then fields["name"] else "flows") + ".json"
  }

  /**
   * `/map_local/enable`: with a non-empty `url` and `file_path` the entry for
   * `url` is inserted or replaced and every other entry kept; otherwise the
   * command is refused with 400 and the table is as it was.
   */
  function Enable(table: map<string, string>, fields: map<string, string>): (u: TableUpdate)
    ensures Given(fields, "url") && Given(fields, "file_path") ==>
      && u.reply == Sent(200, "Mapping added")
      && u.table.Keys == table.Keys + {fields["url"]}
      && u.table[fields["url"]] == fields["file_path"]
      && forall k :: k in table && k != fields["url"] ==> u.table[k] == table[k]
    ensures !(Given(fields, "url") && Given(fields, "file_path")) ==>
      u == TableUpdate(table, Sent(400, "Missing 'url' or 'file_path'"))
  {
    if Given(fields, "url") && Given(fields, "file_path") then
      TableUpdate(table[fields["url"] := fields["file_path"]], Sent(200, "Mapping added"))
    else
      TableUpdate(table, Sent(400, "Missing 'url' or 'file_path'"))
  }

  /**
   * `/map_local/disable`: when `url` is a key only that entry is removed;
   * otherwise (no `url`, or one that is not a key) the whole table is cleared.
   * The reply is 200 either way.
   */
  function Disable(table: map<string, string>, fields: map<string, string>): (u: TableUpdate)
    ensures "url" in fields && fields["url"] in table ==>
      && u.reply == Sent(200, "Mapping removed")
      && u.table.Keys == table.Keys - {fields["url"]}
      && forall k :: k in u.table ==> u.table[k] == table[k]
    ensures !("url" in fields && fields["url"] in table) ==>
      u == TableUpdate(map[], Sent(200, "All mappings cleared"))
  {
    if "url" in fields && fields["url"] in table then
      TableUpdate(table - {fields["url"]}, Sent(200, "Mapping removed"))
    else
      TableUpdate(map[], Sent(200, "All mappings cleared"))
  }

  /** Mapping a URL that was not mapped and then unmapping it restores the table. */
  lemma EnableThenDisable(table: map<string, string>, url: string, path: string)
    requires url != "" && path != "" && url !in table
    ensures Disable(Enable(table, map["url" := url, "file_path" := path]).table, map["url" := url]).table == table
  {
  }

  /** After an accepted enable, looking the URL up gives the path, whatever was mapped before. */
  lemma EnableThenLookup(table: map<string, string>, url: string, path: string, other: string)
    requires url != "" && path != ""
    ensures var t := Enable(table, map["url" := url, "file_path" := path]).table;
      && url in t && t[url] == path
      && (other != url ==> (other in t <==> other in table) && (other in table ==> t[other] == table[other]))
  {
  }

  /** Disabling without a `url` field empties any table. */
  lemma DisableWithoutUrlClears(table: map<string, string>)
    ensures Disable(table, map[]) == TableUpdate(map[], Sent(200, "All mappings cleared"))
  {
  }

  /**
   * Both map commands as written: they read a name `data` that is not defined
   * in the handler, so they raise a `NameError` before touching the table.
   */
  function MapLocalAsWritten(table: map<string, string>, fields: map<string, string>): (u: TableUpdate)
    ensures u.table == table && u.reply == Raised
  {
    TableUpdate(table, Raised)
  }

  /** An enable command with both fields adds nothing as written, while the intended command adds the entry. */
  lemma EnableAsWrittenAddsNothing()
    ensures var fields := map["url" := "https://api.example.com/v1", "file_path" := "/tmp/mock.json"];
      && MapLocalAsWritten(map[], fields).table == map[]
      && Enable(map[], fields).table == map["https://api.example.com/v1" := "/tmp/mock.json"]
  {
  }

  /** A disable command for a mapped URL removes nothing as written, while the intended command removes it. */
  lemma DisableAsWrittenRemovesNothing()
    ensures var table := map["https://api.example.com/v1" := "/tmp/mock.json"];
      var fields := map["url" := "https://api.example.com/v1"];
      && MapLocalAsWritten(table, fields).table == table
      && Disable(table, fields).table == map[]
  {
  }

  class ControlServer {
    const recorder: Recorder
    var mapLocal: map<string, string>

    /** A control server for `recorder`, with no overrides. */
    constructor (recorder: Recorder)
      ensures this.recorder == recorder && mapLocal == map[]
    {
      this.recorder := recorder;
      mapLocal := map[];
    }

    /**
     * `do_POST` on the path of the request URL, given its decoded body.
     * Stopping returns the session that is written out.
     */
    method DoPost<J>(path: string, payload: Payload, codec: Codec<J>)
      returns (reply: Reply, written: Option<Artifact<J>>)
      modifies this, recorder
      ensures Route(path) == StartRecording && payload.Object? ==>
        && recorder.State() == SessionState(true, [], OutputFilename(payload.fields))
        && mapLocal == old(mapLocal)
        && reply == Sent(200, "Recording started as " + OutputFilename(payload.fields))
        && written == None
      ensures Route(path) == StopRecording ==>
        && recorder.State() == old(recorder.State()).(recording := false)
        && mapLocal == old(mapLocal)
        && reply == Sent(200, "Recording stopped and saved")
        && written == Some(Artifact(old(recorder.outputFilename), Records(old(recorder.flows), codec)))
      ensures Route(path) == MapLocalEnable && payload.Object? ==>
        && recorder.State() == old(recorder.State())
        && TableUpdate(mapLocal, reply) == Enable(old(mapLocal), payload.fields)
        && written == None
      ensures Route(path) == MapLocalDisable && payload.Object? ==>
        && recorder.State() == old(recorder.State())
        && TableUpdate(mapLocal, reply) == Disable(old(mapLocal), payload.fields)
        && written == None
      ensures Route(path) == StartRecording && payload.NotObject? ==>
        && recorder.State() == SessionState(true, [], old(recorder.outputFilename))
        && mapLocal == old(mapLocal)
        && reply == Raised
        && written == None
      ensures (Route(path) == StartRecording && payload.NotJson?) ||
              (Route(path) in {MapLocalEnable, MapLocalDisable} && !payload.Object?) ==>
        && recorder.State() == old(recorder.State())
        && mapLocal == old(mapLocal)
        && reply == Raised
        && written == None
      ensures Route(path) == Unknown ==>
        && recorder.State() == old(recorder.State())
        && mapLocal == old(mapLocal)
        && reply == Sent(404, "")
        && written == None
    {
      written := None;
      match Route(path)
      case StartRecording =>
        if payload.NotJson? {
          reply := Raised;
          return;
        }
        recorder.recording := true;
        recorder.flows := [];
        if payload.NotObject? {
          // `payload.get` raises only after the flag and the buffer were set
          reply := Raised;
          return;
        }
        recorder.outputFilename := OutputFilename(payload.fields);
        reply := Sent(200, "Recording started as " + recorder.outputFilename);
      case StopRecording =>
        recorder.recording := false;
        var data := recorder.SaveFlowsAsJson(codec);
        written := Some(Artifact(recorder.outputFilename, data));
        reply := Sent(200, "Recording stopped and saved");
      case MapLocalEnable =>
        if !payload.Object? {
          reply := Raised;
          return;
        }
        var fields := payload.fields;
        if Given(fields, "url") && Given(fields, "file_path") {
          mapLocal := mapLocal[fields["url"] := fields["file_path"]];
          reply := Sent(200, "Mapping added");
        } else {
          reply := Sent(400, "Missing 'url' or 'file_path'");
        }
      case MapLocalDisable =>
        if !payload.Object? {
          reply := Raised;
          return;
        }
        var fields := payload.fields;
        if "url" in fields && fields["url"] in mapLocal {
          mapLocal := mapLocal - {fields["url"]};
          reply := Sent(200, "Mapping removed");
        } else {
          mapLocal := map[];
          reply := Sent(200, "All mappings cleared");
        }
      case Unknown =>
        reply := Sent(404, "");
    }
  }
}
