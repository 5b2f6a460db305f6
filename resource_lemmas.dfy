/** What the datastore upload, update and search of a resource guarantee,
    proved about the functions their methods are verified against. Every
    lemma holds for any `respond`, that is, whichever remote calls fail. */
module ResourceLemmas {
  import opened Values
  import opened Outcomes
  import opened Remote
  import opened Batching
  import opened Resources

  /** The rows an upsert call carries (none for any other call). */
  function RecordsOf(c: Call): seq<Row>
  {
    if c.Write? && c.payload.UpsertRows? then c.payload.records else []
  }

  function Records(calls: seq<Call>): seq<seq<Row>>
  {
    seq(|calls|, j requires 0 <= j < |calls| => RecordsOf(calls[j]))
  }

  /** The calls a run of upserts sends are the batches from `i` on, in
      order: all of them when it reports success, at least one otherwise. */
  lemma {:induction false} SendFromCalls(id: Value, batches: seq<seq<Row>>, i: nat, respond: nat -> Reply, k: nat)
    requires i <= |batches|
    ensures var r := SendFrom(id, batches, i, respond, k);
      |r.calls| <= |batches| - i
      && r.calls == UpsertCalls(id, batches[i..i + |r.calls|])
      && (r.ok ==> |r.calls| == |batches| - i)
      && (!r.ok ==> |r.calls| > 0)
    decreases |batches| - i
  {
    var r := SendFrom(id, batches, i, respond, k);
    if i < |batches| && Accepted(respond(k)) {
      var rest := SendFrom(id, batches, i + 1, respond, k + 1);
      SendFromCalls(id, batches, i + 1, respond, k + 1);
      assert r.calls == [UpsertCall(id, batches[i])] + rest.calls;
      forall j | 0 <= j < |r.calls|
        ensures r.calls[j] == UpsertCall(id, batches[i + j])
      {
        if j > 0 {
          assert r.calls[j] == rest.calls[j - 1];
        }
      }
    } else if i < |batches| {
      assert r.calls == UpsertCalls(id, batches[i..i + 1]);
    } else {
      assert batches[i..i] == [];
    }
  }

  /** A run of upserts stops at the first refused call: every call before
      the last was accepted, success means every call was accepted, and a
      failed run ends with the refused call. */
  lemma {:induction false} SendFromStopsAtRefusal(id: Value, batches: seq<seq<Row>>, i: nat, respond: nat -> Reply, k: nat)
    requires i <= |batches|
    ensures var r := SendFrom(id, batches, i, respond, k);
      (forall m :: k <= m < k + |r.calls| - 1 ==> Accepted(respond(m)))
      && (r.ok ==> forall m :: k <= m < k + |r.calls| ==> Accepted(respond(m)))
      && (!r.ok ==> |r.calls| > 0 && !Accepted(respond(k + |r.calls| - 1)))
    decreases |batches| - i
  {
    if i < |batches| && Accepted(respond(k)) {
      var rest := SendFrom(id, batches, i + 1, respond, k + 1);
      SendFromStopsAtRefusal(id, batches, i + 1, respond, k + 1);
      assert |SendFrom(id, batches, i, respond, k).calls| == 1 + |rest.calls|;
    }
  }

  lemma RecordsOfUpserts(id: Value, batches: seq<seq<Row>>)
    ensures Records(UpsertCalls(id, batches)) == batches
  {
  }

  /** A successful upload sends one datastore_create and then exactly the
      file's rows: joined in send order, the upserted records are the parsed
      rows, in ceil(n / 10000) calls, none for an empty file. */
  lemma UploadSendsEveryRowOnce(data: map<string, Value>, io: LocalIo, schema: Value, primaryKey: Value,
                                respond: nat -> Reply, k: nat)
    requires CreateDatastoreRun(data, io, schema, primaryKey, respond, k).outcome == Pass
    ensures io.parsed.Some? && "id" in data
    ensures var run := CreateDatastoreRun(data, io, schema, primaryKey, respond, k);
      var rows := io.parsed.value;
      |run.calls| >= 1 && run.calls[0] == CreateCall(data["id"], schema, primaryKey)
      && Flatten(Records(run.calls[1..])) == rows
      && |run.calls| - 1 == (|rows| + ChunkSize - 1) / ChunkSize
      && (rows == [] <==> run.calls == [CreateCall(data["id"], schema, primaryKey)])
  {
    var run := CreateDatastoreRun(data, io, schema, primaryKey, respond, k);
    var rows := io.parsed.value;
    var id := data["id"];
    var batches := Batches(rows, ChunkSize);
    SendFromCalls(id, batches, 0, respond, k + 1);
    var sent := SendFrom(id, batches, 0, respond, k + 1);
    assert run.calls == [CreateCall(id, schema, primaryKey)] + sent.calls;
    assert run.calls[1..] == sent.calls;
    assert batches[0..|batches|] == batches;
    RecordsOfUpserts(id, batches);
    FlattenBatches(rows, ChunkSize);
    BatchCount(rows, ChunkSize);
  }

  /** Every call after the first comes from a file that opened and parsed,
      and is an upsert of the resource's own id, with
      `force` set and method 'upsert', holding 1 to 10000 rows; every upsert
      but the last sent holds exactly 10000. */
  lemma UpsertPayloads(data: map<string, Value>, io: LocalIo, schema: Value, primaryKey: Value,
                       respond: nat -> Reply, k: nat, j: nat)
    requires j < |CreateDatastoreRun(data, io, schema, primaryKey, respond, k).calls|
    requires j > 0
    ensures var c := CreateDatastoreRun(data, io, schema, primaryKey, respond, k).calls[j];
      "id" in data && io.opens && io.parsed.Some?
      && c.Write? && c.action == "datastore_upsert" && c.payload.UpsertRows?
      && c.payload.resourceId == data["id"] && c.payload.force && c.payload.mode == "upsert"
      && 0 < |c.payload.records| <= ChunkSize
      && (j < |CreateDatastoreRun(data, io, schema, primaryKey, respond, k).calls| - 1 ==> |c.payload.records| == ChunkSize)
  {
    var run := CreateDatastoreRun(data, io, schema, primaryKey, respond, k);
    var rows := io.parsed.value;
    var id := data["id"];
    var batches := Batches(rows, ChunkSize);
    SendFromCalls(id, batches, 0, respond, k + 1);
    var sent := SendFrom(id, batches, 0, respond, k + 1);
    assert run.calls == [CreateCall(id, schema, primaryKey)] + sent.calls;
    assert run.calls[j] == sent.calls[j - 1];
    assert sent.calls[j - 1] == UpsertCall(id, batches[j - 1]);
    BatchSizes(rows, ChunkSize);
  }

  /** The upload stops at the first refused call: every call but the last
      was accepted; a run that succeeds had every call accepted; once the
      datastore_create went through, any failure is the single upload error;
      and a file that does not open or parse sends no upsert at all. */
  lemma StopsAtFirstRefusal(data: map<string, Value>, io: LocalIo, schema: Value, primaryKey: Value,
                            respond: nat -> Reply, k: nat)
    ensures var run := CreateDatastoreRun(data, io, schema, primaryKey, respond, k);
      (forall m :: k <= m < k + |run.calls| - 1 ==> Accepted(respond(m)))
      && (run.outcome.Pass? ==> forall m :: k <= m < k + |run.calls| ==> Accepted(respond(m)))
      && (|run.calls| > 0 && Accepted(respond(k)) && run.outcome.Fail? ==> run.outcome == Fail(UploadFailed(data["url"])))
      && (run.outcome.Fail? && run.openedFile && io.parsed.Some? ==> !Accepted(respond(k + |run.calls| - 1)))
      && (!io.opens || io.parsed.None? ==> |run.calls| <= 1)
  {
    var run := CreateDatastoreRun(data, io, schema, primaryKey, respond, k);
    if |run.calls| > 0 && Accepted(respond(k)) && io.opens && io.parsed.Some? {
      var id := data["id"];
      var batches := Batches(io.parsed.value, ChunkSize);
      SendFromCalls(id, batches, 0, respond, k + 1);
      SendFromStopsAtRefusal(id, batches, 0, respond, k + 1);
      var sent := SendFrom(id, batches, 0, respond, k + 1);
      assert run.calls == [CreateCall(id, schema, primaryKey)] + sent.calls;
      if run.outcome.Fail? {
        assert k + |run.calls| - 1 == (k + 1) + |sent.calls| - 1;
      }
    }
  }

  /** Exactly one datastore_create, carrying the schema and primary key, is
      the first call, and it is sent exactly when the resource has a URL, the
      download worked and the resource has an id; no call at all is sent
      without a URL. If the create is refused nothing follows and the file
      is not opened. */
  lemma CreateComesFirst(data: map<string, Value>, io: LocalIo, schema: Value, primaryKey: Value,
                         respond: nat -> Reply, k: nat)
    ensures var run := CreateDatastoreRun(data, io, schema, primaryKey, respond, k);
      (|run.calls| > 0 <==> Truthy(Get(data, "url")) && io.download.Some? && "id" in data)
      && (!Truthy(Get(data, "url")) ==> run.calls == [] && run.outcome == Fail(NoUrl) && !run.downloaded)
      && (|run.calls| > 0 ==> run.calls[0] == CreateCall(data["id"], schema, primaryKey))
      && (forall j :: 0 < j < |run.calls| ==> run.calls[j].Write? && run.calls[j].action == "datastore_upsert")
      && (|run.calls| > 0 && !Accepted(respond(k)) ==> |run.calls| == 1 && !run.openedFile)
  {
    var run := CreateDatastoreRun(data, io, schema, primaryKey, respond, k);
    if |run.calls| > 1 {
      forall j | 0 < j < |run.calls|
        ensures run.calls[j].Write? && run.calls[j].action == "datastore_upsert"
      {
        UpsertPayloads(data, io, schema, primaryKey, respond, k, j);
      }
    }
  }

  /** The downloaded file is opened, and so closed and removed, exactly when
      the datastore_create went through and the file could be opened; it is
      left on disk, closed, exactly when the id was missing, the create was
      refused or the open failed; and it is never left open. */
  lemma CleanupIffOpened(data: map<string, Value>, io: LocalIo, schema: Value, primaryKey: Value,
                         respond: nat -> Reply, k: nat, disk: map<string, FileState>)
    ensures var run := CreateDatastoreRun(data, io, schema, primaryKey, respond, k);
      var fetched := Truthy(Get(data, "url")) && io.download.Some?;
      (run.downloaded <==> fetched)
      && (run.openedFile <==> fetched && "id" in data && Accepted(respond(k)) && io.opens)
      && (fetched ==> (io.download.value in DiskAfter(disk, io, run) <==> !run.openedFile))
      && (fetched && io.download.value in DiskAfter(disk, io, run) ==> DiskAfter(disk, io, run)[io.download.value] == Closed)
      && (!fetched ==> DiskAfter(disk, io, run) == disk)
  {
  }

  /** `update_datastore` sends the datastore_delete before anything else; a
      delete the remote reports as unsuccessful is swallowed and the create
      follows as if alone; a delete that raises stops everything. */
  lemma UpdateDeletesFirst(data: map<string, Value>, io: LocalIo, schema: Value, primaryKey: Value,
                           respond: nat -> Reply, k: nat)
    requires "id" in data
    ensures var run := UpdateDatastoreRun(data, io, schema, primaryKey, respond, k);
      var create := CreateDatastoreRun(data, io, schema, primaryKey, respond, k + 1);
      |run.calls| >= 1 && run.calls[0] == DeleteCall(data["id"])
      && run.calls[0].readAction == Some("datastore_delete") && run.calls[0].force
      && (!respond(k).Failed? ==> run.calls[1..] == create.calls && run.outcome == create.outcome)
      && (respond(k).Failed? ==> run.calls == [DeleteCall(data["id"])] && run.outcome == Fail(RemoteError(DeleteCall(data["id"]))))
  {
  }

  /** Without a 'primary_key' entry the datastore is created with primary key None. */
  lemma DictSchemaDefaultKey(data: map<string, Value>, io: LocalIo, d: map<string, Value>,
                             respond: nat -> Reply, k: nat)
    requires "schema" in d && "primary_key" !in d
    ensures var run := CreateFromDictRun(data, io, d, respond, k);
      run == CreateDatastoreRun(data, io, d["schema"], Null, respond, k)
      && (|run.calls| > 0 ==> run.calls[0].payload == CreateTable(data["id"], true, d["schema"], Null))
  {
  }

  /** A search yields no resources exactly when the read result is falsy,
      its count is missing or falsy, or its results list is empty; otherwise
      one record per entry, in order, a falsy entry giving an empty one. */
  lemma SearchResults(result: Value)
    requires SearchRecords(result).Ok?
    ensures var recs := SearchRecords(result).value;
      (recs == [] <==> !Truthy(result) || !Truthy(Get(result.fields, "count")) || result.fields["results"] == Arr([]))
      && (Truthy(result) && Truthy(Get(result.fields, "count")) ==>
            var items := result.fields["results"].items;
            |recs| == |items|
            && forall j :: 0 <= j < |items| ==> recs[j] == (if Truthy(items[j]) then items[j].fields else map[]))
  {
  }
}
