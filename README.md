# HDX resource datastore client, modelled in Dafny

This project models the `Resource` object of the HDX Python API, the client
library for the Humanitarian Data Exchange catalogue. The model covers:

- the fixed table of remote action names;
- reading one resource and searching for resources;
- downloading a resource's file;
- pushing the file's rows into the remote datastore: one `datastore_create`,
  then `datastore_upsert` calls in batches of 10,000 rows;
- deleting the datastore, and re-creating it.

The remote catalogue is a `Remote.Site`. It records every call in order in
`log`. It answers the k-th call of the session with `respond(k)`, which is
either an answer, a not-found reply carrying a message, or a failure. Every
property is proved for every `respond`, so it holds whichever calls fail.
The local steps of an upload are given as a `LocalIo` value:

- the path the downloader wrote, or none if it raised;
- whether the file opens;
- the rows the CSV reader yields, or none if it raised.

The disk is a ghost map from path to `Closed`/`Open`. Python exceptions
become `Outcome`/`Result` values carrying an `Error`.

Each state-changing operation is a method. It is proved against a function
that gives the calls it sends and how it ends: `CreateDatastoreRun`,
`UploadRun`, `SendFrom`, `DeleteDatastoreRun`, `UpdateDatastoreRun`,
`SearchOutcome`. The lemmas in `ResourceLemmas` and `Batching` state what
those functions guarantee. The upload loop keeps the source's `offset`
cursor; its invariant ties the cursor to the batch partition `Batches`.

Two behaviours of the code are worth stating, and the model keeps both:

- The downloaded file is closed and removed only in the `finally` block
  (hdx/data/resource.py:211-214), and only when `f` was opened. So the file
  stays on disk when the resource has no `id` (:193), when
  `datastore_create` raises (:194), or when `open` fails (:197).
- `search_in_hdx` makes a single read (:140). It never passes on the
  `order_by`, `offset` or `limit` keyword arguments that its docstring lists
  (:130-133).

## Model

| member | source | states |
|---|---|---|
| `Remote.ActionsTable` | hdx/data/resource.py:37-46 | the table has exactly eight operations; show/update/create/delete/search map to "resource_" plus the key, and the three datastore operations keep their key; no two operations share an action |
| `Resources.Resource.constructor` | hdx/data/resource.py:25-28 | initial data that is None or empty becomes an empty dictionary; otherwise the given dictionary is kept |
| `Resources.Resource.ReadFromHdx` | hdx/data/resource.py:82-86 | sends one load call; returns the new resource when the load succeeds, None when it reports no success, and raises when the remote fails |
| `Resources.Resource.SearchInHdx` | hdx/data/resource.py:138-149 | sends one read with the query; the loop builds one fresh resource per record of `SearchOutcome`, in order, or raises that outcome's error |
| `ResourceLemmas.SearchResults` | hdx/data/resource.py:141-146 | a search yields nothing exactly when the result is falsy, its count is missing or falsy, or its results list is empty; otherwise one record per entry, in the same order, with a falsy entry giving an empty record |
| `Resources.Resource.DeleteDatastore` | hdx/data/resource.py:157-161 | a missing id raises before any call; otherwise one `datastore_delete` read with `force` for the resource id; a not-found reply is swallowed and only a remote failure raises |
| `Resources.DownloadResult` | hdx/data/resource.py:174-178 | download fails exactly when the URL is missing or falsy (raising the no-URL error) or the downloader fails; otherwise it returns the URL and the downloaded path |
| `Resources.Resource.Download` | hdx/data/resource.py:174-178 | returns `DownloadResult`; a successful download leaves one new closed file on disk, and a failed one changes nothing |
| `Resources.Resource.CreateDatastore` | hdx/data/resource.py:190-214 | the calls appended to the log, the outcome and the disk afterwards are those of `CreateDatastoreRun` |
| `Resources.Resource.UploadFromFile` | hdx/data/resource.py:195-214 | the try/finally part: the calls and outcome of `UploadRun`; the file is closed and removed exactly when it was opened, and otherwise the disk is unchanged |
| `Resources.UpsertInBatches` | hdx/data/resource.py:199-208 | the `offset` loop sends exactly the calls of `SendFrom` over `Batches(rows, 10000)` and reports whether all went through; its loop invariant keeps `offset` at the number of batches sent times the chunk size, and its decreases clause makes the loop terminate |
| `ResourceLemmas.SendFromCalls` | hdx/data/resource.py:203-207 | the upserts sent from batch i on are those batches in order, each with the resource id, never more than remain; a success sends every remaining batch, and a failure sends at least one |
| `ResourceLemmas.SendFromStopsAtRefusal` | hdx/data/resource.py:203-210 | every upsert before the last one sent was accepted; a success means every upsert was accepted; a failure ends with the refused upsert |
| `ResourceLemmas.UploadSendsEveryRowOnce` | hdx/data/resource.py:191-207 | a successful upload is one `datastore_create` followed by upserts whose records, joined in send order, are exactly the parsed rows, in ceil(n/10000) calls; an empty file sends only the create |
| `ResourceLemmas.UpsertPayloads` | hdx/data/resource.py:200-207 | every call after the first comes from a file that opened and parsed, and is a `datastore_upsert` with the resource's own id, `force` true and method "upsert"; it holds 1 to 10000 rows, and every upsert but the last sent holds exactly 10000 |
| `ResourceLemmas.StopsAtFirstRefusal` | hdx/data/resource.py:196-210 | every call but the last was accepted; a successful run had all calls accepted; after an accepted create every failure is the single upload error for the URL; a failure while upserting parsed rows ends with the refused call; a file that does not open or parse sends no upsert |
| `ResourceLemmas.CreateComesFirst` | hdx/data/resource.py:191-196 | a call is sent exactly when there is a URL, the download works and the resource has an id; no URL means no call and the no-URL error; the first call is the one `datastore_create` with the schema and primary key, and every later call is an upsert; if the create is refused nothing follows and the file is not opened |
| `ResourceLemmas.CleanupIffOpened` | hdx/data/resource.py:195-214 | the file is opened (and then closed and removed) exactly when the create went through and the open succeeded; a downloaded file that was not opened stays on disk, closed; a file is never left open |
| `Batching.FlattenBatches` | hdx/data/resource.py:203-207 | joining the batches gives back the row list: nothing is dropped, duplicated or reordered |
| `Batching.BatchSizes` | hdx/data/resource.py:204 | every batch is non-empty and at most the chunk size; all but the last are exactly the chunk size |
| `Batching.BatchCount` | hdx/data/resource.py:200-207 | the number of batches is the ceiling of n divided by the chunk size, and it is zero exactly for an empty list |
| `Batching.BatchAt` | hdx/data/resource.py:204 | batch i is the slice of the rows from i times the chunk size, cut at the chunk size or at the end, as the Python slice `rows[offset:offset + chunksize]` gives |
| `Batching.BatchCursor` | hdx/data/resource.py:203 | the loop test `offset < len(rows)`, with offset at i times the chunk size, holds exactly when batch i exists |
| `Resources.Resource.CreateDatastoreFromDictSchema` | hdx/data/resource.py:226-228 | a missing 'schema' raises before any call; otherwise the run is `create_datastore` with that schema and the 'primary_key' entry, or None |
| `ResourceLemmas.DictSchemaDefaultKey` | hdx/data/resource.py:227 | without a 'primary_key' entry the datastore is created with primary key None |
| `Resources.Resource.UpdateDatastore` | hdx/data/resource.py:275-276 | the calls, outcome and disk are those of `UpdateDatastoreRun`: delete, then create |
| `ResourceLemmas.UpdateDeletesFirst` | hdx/data/resource.py:275-276 | the `datastore_delete` is the first call; an unsuccessful delete is swallowed and the create follows as if alone; a delete that raises stops everything |

## Left out

- `update_from_yaml` and `update_from_json` are left out. They pass a file path to the matching method in hdxobject.py, which is not part of this model.
- The `*_from_yaml_schema`, `*_from_json_schema` and `*_for_topline` variants of create and update are left out. Each loads a YAML or JSON file and then calls `create_datastore_from_dict_schema` (the update variants call `delete_datastore` first). Those calls are modelled.
- `check_required_fields`, `update_in_hdx`, `create_in_hdx` and `delete_from_hdx` each make one call to a helper in hdxobject.py. hdxobject.py is not part of this model.
- The HDXObject helpers for reading, loading and writing are opaque calls. A call is recorded in the log and the reply decides whether it succeeds. A write fails on any reply but an answer. A read returns (success, result) or raises on a failure.
- `download_file`, file opening and CSV parsing are I/O. Their results are the `LocalIo` parameter. The rows are an opaque `seq<Row>`, and CSV syntax is not modelled.
- `download`'s optional `path` argument is not modelled. Where the file lands is the downloader's choice, given by `LocalIo`.
- Log messages and the text of exception messages are not modelled. Errors are kinds only.
- `Value` has no floating-point numbers.
- `Resources.Resource.ReadFromHdx`: does not model what the load helper copies into the new resource, because that happens in hdxobject.py. The returned resource holds the empty dictionary it was built with.
- `Resources.Resource.SearchInHdx`: the Python code raises or iterates oddly in some cases, and the model reports the single `WrongShape` error for all of them. The cases are a truthy result that is not a dictionary, a `results` entry that is not a list, and an entry that is neither empty nor a dictionary.
- The two test modules only fake the HTTP session and mail server for datasets and users. Those source files are not part of this model.
