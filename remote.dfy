/** The HDX catalogue as the resource code sees it: a fixed table of action
    names, the calls it sends, the replies it gets, and the local disk that
    holds a downloaded file. What the remote does with a call is opaque: a
    `Site` records every call in order and answers the k-th call of its
    session with `respond(k)`, an arbitrary function, so every property
    proved for all `respond` holds whichever calls succeed or fail. */
module Remote {
  import opened Values
  import opened Outcomes

  /** Logical operation name to remote action identifier, for resources. */
  function Actions(): (table: map<string, string>)
  {
    map[
      "show" := "resource_show",
      "update" := "resource_update",
      "create" := "resource_create",
      "delete" := "resource_delete",
      "search" := "resource_search",
      "datastore_delete" := "datastore_delete",
      "datastore_create" := "datastore_create",
      "datastore_upsert" := "datastore_upsert"
    ]
  }

  /** The keys naming datastore operations, whose actions keep the key as it is. */
  const DatastoreKeys: set<string> := {"datastore_delete", "datastore_create", "datastore_upsert"}

  /** The table holds the eight operations; the five object operations are
      the key prefixed with "resource_", the three datastore operations keep
      the key; no two operations share an action. */
  lemma ActionsTable()
    ensures Actions().Keys == {"show", "update", "create", "delete", "search"} + DatastoreKeys
    ensures forall key :: key in Actions() ==>
      Actions()[key] == if key in DatastoreKeys then key else "resource_" + key
    ensures forall a, b :: a in Actions() && b in Actions() && a != b ==> Actions()[a] != Actions()[b]
  {
  }

  /** The dictionary sent with a datastore write. */
  datatype Payload =
    | CreateTable(resourceId: Value, force: bool, fields: Value, primaryKey: Value)
      // `mode` is the payload's 'method' entry
    | UpsertRows(resourceId: Value, force: bool, mode: string, records: seq<Row>)

  /** One call to the remote, as the object helpers of the catalogue client issue it. */
  datatype Call =
      // a write helper call: the action key, the dictionary, the field naming the id
    | Write(action: string, payload: Payload, idField: string)
      // a read helper call: object type, the value looked up under `fieldName`,
      // an explicit action (None: the helper's default) and the `force` keyword
    | Read(objectType: string, value: Value, fieldName: string, readAction: Option<string>, force: bool)
      // the load helper that fills an object from the remote
    | Load(objectType: string, identifier: string)

  /** The remote's reply to one call: a result, a not-found answer with its
      message, or a transport or server failure that the helpers raise. */
  datatype Reply = Answer(result: Value) | NotFound(message: Value) | Failed

  /** The exceptions the modelled operations raise. */
  datatype Error =
    | NoUrl                    // the resource has no URL to download
    | DownloadFailed           // raised by the downloader
    | MissingKey(key: string)  // a Python KeyError on a dictionary lookup
    | RemoteError(call: Call)  // raised by a helper when the remote fails `call`
    | UploadFailed(url: Value) // the single error of a failed datastore upload
    | WrongShape               // a reply too malformed to be read as a dictionary or list

  /** A write helper returns only on a proper answer and raises otherwise. */
  predicate Accepted(r: Reply)
  {
    r.Answer?
  }

  /** What the read helper returns for a reply to `call`: the pair
      (success, result), or the error it raises. */
  function ReadResult(call: Call, r: Reply): (res: Result<(bool, Value), Error>)
    ensures res.Ok? <==> !r.Failed?
    ensures res.Ok? ==> (res.value.0 <==> r.Answer?)
    ensures res.Err? ==> res.error == RemoteError(call)
  {
    match r
    case Answer(v) => Ok((true, v))
    case NotFound(m) => Ok((false, m))
    case Failed => Err(RemoteError(call))
  }

  /** The state of a file on the local disk. */
  datatype FileState = Closed | Open

  /** The remote catalogue together with the local disk. */
  class Site {
    /** The reply to the k-th call of this session. */
    const respond: nat -> Reply
    /** Every call sent so far, in order. */
    var log: seq<Call>
    /** The files on disk and whether each is open. */
    ghost var disk: map<string, FileState>

    constructor (respond: nat -> Reply)
      ensures this.respond == respond && log == [] && disk == map[]
    {
      this.respond := respond;
      log := [];
      disk := map[];
    }

    /** Sends one call; its reply is the one scheduled for its position. */
    method Send(c: Call) returns (reply: Reply)
      modifies this`log
      ensures log == old(log) + [c]
      ensures reply == respond(|old(log)|)
    {
      reply := respond(|log|);
      log := log + [c];
    }

    /** A download writes a fresh closed file at `path`. */
    method Store(path: string)
      modifies this`disk
      ensures disk == old(disk)[path := Closed]
    {
      disk := disk[path := Closed];
    }

    method OpenFile(path: string)
      modifies this`disk
      ensures disk == old(disk)[path := Open]
    {
      disk := disk[path := Open];
    }

    method CloseFile(path: string)
      modifies this`disk
      ensures disk == old(disk)[path := Closed]
    {
      disk := disk[path := Closed];
    }

    method Unlink(path: string)
      modifies this`disk
      ensures disk == old(disk) - {path}
    {
      disk := disk - {path};
    }
  }
}
