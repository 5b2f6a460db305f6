/** The HDX resource object: downloading its file, pushing the file's rows
    into the remote datastore in fixed-size batches, deleting and
    re-creating the datastore, reading one resource and searching for many.
    Each operation that talks to the remote is a method on a `Site`, proved
    against a function that gives the calls it sends and how it ends. */
module Resources {
  import opened Values
  import opened Outcomes
  import opened Remote
  import opened Batching

  /** Rows per upsert call. */
  const ChunkSize: nat := 10000

  /** How the local steps of an upload turn out: the path the downloader
      wrote (None: it raised), whether the file opens, and the rows the CSV
      reader yields (None: it raised). */
  datatype LocalIo = LocalIo(download: Option<string>, opens: bool, parsed: Option<seq<Row>>)

  /** The effect of one datastore operation: the calls it sent, in order, how
      it ended, and whether it downloaded the resource file and opened it. */
  datatype Run = Run(calls: seq<Call>, outcome: Outcome<Error>, downloaded: bool, openedFile: bool)

  /** The calls sent by a run of upserts: the batches sent and whether all went through. */
  datatype Sent = Sent(calls: seq<Call>, ok: bool)

  function CreateCall(id: Value, schema: Value, primaryKey: Value): Call
  {
    Write("datastore_create", CreateTable(id, true, schema, primaryKey), "id")
  }

  function UpsertCall(id: Value, batch: seq<Row>): Call
  {
    Write("datastore_upsert", UpsertRows(id, true, "upsert", batch), "id")
  }

  function UpsertCalls(id: Value, batches: seq<seq<Row>>): seq<Call>
  {
    seq(|batches|, j requires 0 <= j < |batches| => UpsertCall(id, batches[j]))
  }

  function DeleteCall(id: Value): Call
  {
    Read("datastore", id, "resource_id", Some(Actions()["datastore_delete"]), true)
  }

  function SearchCall(query: string): Call
  {
    Read("resource", Str(query), "query", None, false)
  }

  function LoadCall(identifier: string): Call
  {
    Load("resource", identifier)
  }

  /** Upserting `batches[i..]` one at a time, the k-th call of the session
      first, stopping at the first call the remote does not accept. */
  function SendFrom(id: Value, batches: seq<seq<Row>>, i: nat, respond: nat -> Reply, k: nat): Sent
    requires i <= |batches|
    decreases |batches| - i
  {
    if i == |batches| then Sent([], true)
    else if !Accepted(respond(k)) then Sent([UpsertCall(id, batches[i])], false)
    else
      var rest := SendFrom(id, batches, i + 1, respond, k + 1);
      Sent([UpsertCall(id, batches[i])] + rest.calls, rest.ok)
  }

  /** What `download` returns: the URL and the downloaded path, or the error
      it raises. */
  function DownloadResult(data: map<string, Value>, io: LocalIo): (r: Result<(Value, string), Error>)
    ensures r.Err? <==> !Truthy(Get(data, "url")) || io.download.None?
    ensures !Truthy(Get(data, "url")) ==> r == Err(NoUrl)
    ensures r.Ok? ==> r.value == (data["url"], io.download.value)
  {
    var url := Get(data, "url");
    if !Truthy(url) then Err(NoUrl)
    else match io.download
      case None => Err(DownloadFailed)
      case Some(path) => Ok((url, path))
  }

  /** `create_datastore`: download, one datastore_create, then the rows in
      batches of `ChunkSize` until one is refused. */
  function CreateDatastoreRun(data: map<string, Value>, io: LocalIo, schema: Value, primaryKey: Value,
                              respond: nat -> Reply, k: nat): Run
  {
    match DownloadResult(data, io)
    case Err(e) => Run([], Fail(e), false, false)
    case Ok((url, _)) =>
      if "id" !in data then Run([], Fail(MissingKey("id")), true, false)
      else
        var create := CreateCall(data["id"], schema, primaryKey);
        if !Accepted(respond(k)) then Run([create], Fail(RemoteError(create)), true, false)
        else
          var upload := UploadRun(data["id"], url, io, respond, k + 1);
          Run([create] + upload.calls, upload.outcome, true, upload.openedFile)
  }

  /** The `try` part of `create_datastore`, after the datastore_create: open
      the file, read its rows, upsert them in batches; every exception becomes
      one upload failure. */
  function UploadRun(id: Value, url: Value, io: LocalIo, respond: nat -> Reply, k: nat): Run
  {
    if !io.opens then Run([], Fail(UploadFailed(url)), true, false)
    else match io.parsed
      case None => Run([], Fail(UploadFailed(url)), true, true)
      case Some(rows) =>
        var sent := SendFrom(id, Batches(rows, ChunkSize), 0, respond, k);
        Run(sent.calls, if sent.ok then Pass else Fail(UploadFailed(url)), true, true)
  }

  /** The disk after a run: an opened file is closed and removed, a
      downloaded file that was never opened stays. */
  ghost function DiskAfter(disk: map<string, FileState>, io: LocalIo, run: Run): map<string, FileState>
  {
    if !run.downloaded || io.download.None? then disk
    else if run.openedFile then disk - {io.download.value}
    else disk[io.download.value := Closed]
  }

  /** `create_datastore_from_dict_schema`: the schema is required, the
      primary key defaults to None. */
  function CreateFromDictRun(data: map<string, Value>, io: LocalIo, d: map<string, Value>,
                             respond: nat -> Reply, k: nat): Run
  {
    if "schema" !in d then Run([], Fail(MissingKey("schema")), false, false)
    else CreateDatastoreRun(data, io, d["schema"], Get(d, "primary_key"), respond, k)
  }

  /** `delete_datastore`: one datastore_delete read; an unsuccessful reply is
      only logged, a failing one raises. */
  function DeleteDatastoreRun(data: map<string, Value>, respond: nat -> Reply, k: nat): Run
  {
    if "id" !in data then Run([], Fail(MissingKey("id")), false, false)
    else
      var call := DeleteCall(data["id"]);
      match ReadResult(call, respond(k))
      case Err(e) => Run([call], Fail(e), false, false)
      case Ok(_) => Run([call], Pass, false, false)
  }

  /** `update_datastore`: delete, then create. */
  function UpdateDatastoreRun(data: map<string, Value>, io: LocalIo, schema: Value, primaryKey: Value,
                              respond: nat -> Reply, k: nat): Run
  {
    var del := DeleteDatastoreRun(data, respond, k);
    if del.outcome.Fail? then del
    else
      var create := CreateDatastoreRun(data, io, schema, primaryKey, respond, k + |del.calls|);
      Run(del.calls + create.calls, create.outcome, create.downloaded, create.openedFile)
  }

  /** Whether the Resource constructor takes `v` as initial data: None, an
      empty value, or a dictionary. */
  predicate ValidInitial(v: Value)
  {
    !Truthy(v) || v.Obj?
  }

  /** The dictionary a Resource built from `v` holds: a falsy value becomes
      an empty dictionary. */
  function InitialData(v: Value): map<string, Value>
  {
    if v.Obj? then v.fields else map[]
  }

  /** The records `search_in_hdx` builds Resources from, given the read
      result: none for a falsy result or a falsy count, else one per entry of
      `results`, in order. */
  function SearchRecords(result: Value): Result<seq<map<string, Value>>, Error>
  {
    if !Truthy(result) then Ok([])
    else if !result.Obj? then Err(WrongShape)
    else if !Truthy(Get(result.fields, "count")) then Ok([])
    else if "results" !in result.fields then Err(MissingKey("results"))
    else match result.fields["results"]
      case Arr(items) =>
        if forall j :: 0 <= j < |items| ==> ValidInitial(items[j])
        then Ok(seq(|items|, j requires 0 <= j < |items| => InitialData(items[j])))
        else Err(WrongShape)
      case _ => Err(WrongShape)
  }

  /** `search_in_hdx` for a reply to its one read. */
  function SearchOutcome(query: string, reply: Reply): Result<seq<map<string, Value>>, Error>
  {
    match ReadResult(SearchCall(query), reply)
    case Err(e) => Err(e)
    case Ok((_, result)) => SearchRecords(result)
  }

  class Resource {
    /** The resource's metadata dictionary. */
    var data: map<string, Value>

    constructor (initial: Value)
      requires ValidInitial(initial)
      ensures data == InitialData(initial)
    {
      if !Truthy(initial) {
        data := map[];
      } else {
        data := initial.fields;
      }
    }

    /** Downloads the resource's URL to a file and returns (url, path). */
    method Download(site: Site, io: LocalIo) returns (r: Result<(Value, string), Error>)
      modifies site`disk
      ensures r == DownloadResult(data, io)
      ensures site.disk == if r.Ok? then old(site.disk)[r.value.1 := Closed] else old(site.disk)
    {
      var url := Get(data, "url");
      if !Truthy(url) {
        return Err(NoUrl);
      }
      match io.download
      case None =>
        r := Err(DownloadFailed);
      case Some(path) =>
        site.Store(path);
        r := Ok((url, path));
    }

    /** Creates the datastore and uploads the downloaded file's rows into it. */
    method CreateDatastore(site: Site, io: LocalIo, schema: Value, primaryKey: Value) returns (out: Outcome<Error>)
      modifies site`log, site`disk
      ensures var run := CreateDatastoreRun(data, io, schema, primaryKey, site.respond, |old(site.log)|);
        out == run.outcome && site.log == old(site.log) + run.calls
        && site.disk == DiskAfter(old(site.disk), io, run)
    {
      var download := Download(site, io);
      if download.Err? {
        return Fail(download.error);
      }
      var (url, path) := download.value;
      if "id" !in data {
        return Fail(MissingKey("id"));
      }
      var create := CreateCall(data["id"], schema, primaryKey);
      var reply := site.Send(create);
      if !Accepted(reply) {
        return Fail(RemoteError(create));
      }
      out := UploadFromFile(site, data["id"], url, path, io);
    }

    /** The `try`/`finally` part of `create_datastore`: the file is closed and
        removed exactly when it was opened. */
    method UploadFromFile(site: Site, id: Value, url: Value, path: string, io: LocalIo) returns (out: Outcome<Error>)
      requires io.download == Some(path)
      modifies site`log, site`disk
      ensures var run := UploadRun(id, url, io, site.respond, |old(site.log)|);
        out == run.outcome && site.log == old(site.log) + run.calls
        && site.disk == if run.openedFile then old(site.disk) - {path} else old(site.disk)
    {
      var f := false;
      out := Pass;
      // try:
      if !io.opens {
        out := Fail(UploadFailed(url));
      } else {
        site.OpenFile(path);
        f := true;
        match io.parsed
        case None =>
          out := Fail(UploadFailed(url));
        case Some(rows) =>
          var ok := UpsertInBatches(site, id, rows);
          if !ok {
            out := Fail(UploadFailed(url));
          }
      }
      // finally:
      if f {
        site.CloseFile(path);
        site.Unlink(path);
      }
    }

    /** Creates the datastore from a dictionary with a 'schema' and an
        optional 'primary_key'. */
    method CreateDatastoreFromDictSchema(site: Site, io: LocalIo, d: map<string, Value>) returns (out: Outcome<Error>)
      modifies site`log, site`disk
      ensures var run := CreateFromDictRun(data, io, d, site.respond, |old(site.log)|);
        out == run.outcome && site.log == old(site.log) + run.calls
        && site.disk == DiskAfter(old(site.disk), io, run)
    {
      if "schema" !in d {
        return Fail(MissingKey("schema"));
      }
      var schema := d["schema"];
      var primaryKey := Get(d, "primary_key");
      out := CreateDatastore(site, io, schema, primaryKey);
    }

    /** Deletes the resource's datastore. */
    method DeleteDatastore(site: Site) returns (out: Outcome<Error>)
      modifies site`log
      ensures var run := DeleteDatastoreRun(data, site.respond, |old(site.log)|);
        out == run.outcome && site.log == old(site.log) + run.calls
    {
      if "id" !in data {
        return Fail(MissingKey("id"));
      }
      var call := DeleteCall(data["id"]);
      var reply := site.Send(call);
      var read := ReadResult(call, reply);
      if read.Err? {
        return Fail(read.error);
      }
      // an unsuccessful delete is only logged
      out := Pass;
    }

    /** Deletes the datastore, then creates it again from the file. */
    method UpdateDatastore(site: Site, io: LocalIo, schema: Value, primaryKey: Value) returns (out: Outcome<Error>)
      modifies site`log, site`disk
      ensures var run := UpdateDatastoreRun(data, io, schema, primaryKey, site.respond, |old(site.log)|);
        out == run.outcome && site.log == old(site.log) + run.calls
        && site.disk == DiskAfter(old(site.disk), io, run)
    {
      ghost var k := |site.log|;
      ghost var del := DeleteDatastoreRun(data, site.respond, k);
      out := DeleteDatastore(site);
      if out.Fail? {
        return;
      }
      ghost var mid := site.log;
      ghost var create := CreateDatastoreRun(data, io, schema, primaryKey, site.respond, |mid|);
      assert |mid| == k + |del.calls|;
      out := CreateDatastore(site, io, schema, primaryKey);
      assert site.log == old(site.log) + (del.calls + create.calls);
    }

    /** Reads the resource `identifier`: the new Resource when the load
        succeeds, None when it reports no success. */
    static method ReadFromHdx(site: Site, identifier: string) returns (r: Result<Option<Resource>, Error>)
      modifies site`log
      ensures site.log == old(site.log) + [LoadCall(identifier)]
      ensures var read := ReadResult(LoadCall(identifier), site.respond(|old(site.log)|));
        (r.Err? <==> read.Err?) && (r.Err? ==> r.error == read.error)
        && (r.Ok? ==> (r.value.Some? <==> read.value.0))
      ensures r.Ok? && r.value.Some? ==> fresh(r.value.value) && r.value.value.data == map[]
    {
      var resource := new Resource(Null);
      var call := LoadCall(identifier);
      var reply := site.Send(call);
      var read := ReadResult(call, reply);
      if read.Err? {
        return Err(read.error);
      }
      if read.value.0 {
        return Ok(Some(resource));
      }
      return Ok(None);
    }

    /** Searches for resources matching `query`. */
    static method SearchInHdx(site: Site, query: string) returns (r: Result<seq<Resource>, Error>)
      modifies site`log
      ensures site.log == old(site.log) + [SearchCall(query)]
      ensures var expected := SearchOutcome(query, site.respond(|old(site.log)|));
        (r.Ok? <==> expected.Ok?) && (r.Err? ==> r.error == expected.error)
        && (r.Ok? ==> |r.value| == |expected.value|)
        && (r.Ok? ==> forall j :: 0 <= j < |r.value| ==> fresh(r.value[j]) && r.value[j].data == expected.value[j])
    {
      var resources: seq<Resource> := [];
      var call := SearchCall(query);
      var reply := site.Send(call);
      var read := ReadResult(call, reply);
      if read.Err? {
        return Err(read.error);
      }
      var result := read.value.1;
      if Truthy(result) {
        if !result.Obj? {
          return Err(WrongShape);
        }
        var count := Get(result.fields, "count");
        if Truthy(count) {
          if "results" !in result.fields {
            return Err(MissingKey("results"));
          }
          var results := result.fields["results"];
          if !results.Arr? {
            return Err(WrongShape);
          }
          var items := results.items;
          for i := 0 to |items|
            invariant site.log == old(site.log) + [call]
            invariant |resources| == i
            invariant forall j :: 0 <= j < i ==> ValidInitial(items[j])
            invariant forall j :: 0 <= j < i ==> fresh(resources[j]) && resources[j].data == InitialData(items[j])
          {
            if !ValidInitial(items[i]) {
              return Err(WrongShape);
            }
            var resource := new Resource(items[i]);
            resources := resources + [resource];
          }
        }
      }
      r := Ok(resources);
    }
  }

  /** The upload loop of `create_datastore`: an `offset` cursor walks the
      rows and each step upserts the next `ChunkSize` rows (fewer at the end),
      stopping at the first call the remote refuses. */
  method UpsertInBatches(site: Site, id: Value, rows: seq<Row>) returns (ok: bool)
    modifies site`log
    ensures var sent := SendFrom(id, Batches(rows, ChunkSize), 0, site.respond, |old(site.log)|);
      site.log == old(site.log) + sent.calls && ok == sent.ok
  {
    ghost var batches := Batches(rows, ChunkSize);
    ghost var k := |site.log|;
    ghost var whole := SendFrom(id, batches, 0, site.respond, k);
    ghost var rest := whole;
    ok := true;
    var offset := 0;
    ghost var done: nat := 0;
    while offset < |rows|
      invariant done <= |batches| && offset == done * ChunkSize
      invariant |site.log| == k + done
      invariant rest == SendFrom(id, batches, done, site.respond, k + done)
      invariant site.log + rest.calls == old(site.log) + whole.calls && rest.ok == whole.ok
      decreases |rows| - offset
    {
      BatchCursor(rows, ChunkSize, done);
      BatchAt(rows, ChunkSize, done, offset);
      var rowset := rows[offset..Min(offset + ChunkSize, |rows|)];
      assert rowset == batches[done];
      ghost var before := site.log;
      var reply := site.Send(UpsertCall(id, rowset));
      if !Accepted(reply) {
        assert rest.calls == [UpsertCall(id, rowset)] && !rest.ok;
        ok := false;
        return;
      }
      ghost var next := SendFrom(id, batches, done + 1, site.respond, k + done + 1);
      assert rest.calls == [UpsertCall(id, rowset)] + next.calls && rest.ok == next.ok;
      assert site.log + next.calls == before + rest.calls;
      offset := offset + ChunkSize;
      done := done + 1;
      rest := next;
    }
    BatchCursor(rows, ChunkSize, done);
  }
}
