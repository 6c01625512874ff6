/**
 * `ETLLoader`: a MongoDB client opened by `__enter__`, closed by `__exit__`,
 * and `load_data`, which bulk-inserts one batch. The database is replaced by
 * the outcome of the insert and by a log of the bulk inserts attempted.
 */
module Loader {
  import opened Wrappers
  import opened Transformer

  /** `self.client`: `None`, an open `MongoClient`, or one that was closed. */
  datatype ClientState = NoClient | Open | Closed

  /** What `insert_many` did: returned normally, or raised. */
  datatype InsertOutcome = Acknowledged | Raised

  /** One `insert_many` call: the database, the collection and the documents. */
  datatype InsertCall = InsertCall(db: string, collection: string, docs: seq<Document>)

  /** The result of `load_data` and the one batch it sent to `insert_many`, if any. */
  datatype LoadEffect = LoadEffect(success: bool, inserted: Option<seq<Document>>)

  /**
   * The decision `load_data` takes. Empty or missing data returns `False`
   * without touching the store. Without a client, `self.client[...]` raises
   * a `TypeError` that the handler catches, so nothing is inserted either.
   * Otherwise the whole list goes to a single `insert_many`, and the call
   * succeeds exactly when that insert does.
   */
  function LoadOutcome(data: Option<seq<Document>>, hasClient: bool, store: InsertOutcome): (e: LoadEffect)
    ensures IsEmpty(data) ==> e == LoadEffect(false, None)
    ensures e.inserted.Some? <==> !IsEmpty(data) && hasClient
    ensures e.inserted.Some? ==> e.inserted.value == data.value && e.inserted.value != []
    ensures e.success <==> e.inserted.Some? && store == Acknowledged
  {
    if IsEmpty(data) then LoadEffect(false, None)
    else if !hasClient then LoadEffect(false, None)
    else LoadEffect(store == Acknowledged, data)
  }

  /** The inserts one `load_data` call adds to the store's log. */
  function InsertsOf(db: string, collection: string, e: LoadEffect): (calls: seq<InsertCall>)
    ensures |calls| <= 1
    ensures calls == [] <==> e.inserted.None?
    ensures calls != [] ==> calls[0] == InsertCall(db, collection, e.inserted.value)
  {
    if e.inserted.Some? then [InsertCall(db, collection, e.inserted.value)] else []
  }

  class ETLLoader {
    const mongoUri: string
    const dbName: string
    var client: ClientState
    /** Every `insert_many` this loader's client attempted, oldest first. */
    var inserts: seq<InsertCall>

    constructor (mongoUri: string, dbName: string)
      ensures this.mongoUri == mongoUri && this.dbName == dbName
      ensures client == NoClient && inserts == []
    {
      this.mongoUri := mongoUri;
      this.dbName := dbName;
      client := NoClient;
      inserts := [];
    }

    /**
     * `__enter__`: `connects` is whether `MongoClient(mongo_uri)` returned.
     * When it raises, the client is left as it was and the exception is
     * re-raised (`raised` is true).
     */
    method Enter(connects: bool) returns (raised: bool)
      modifies this`client
      ensures raised == !connects
      ensures client == if connects then Open else old(client)
    {
      if connects {
        client := Open;
        raised := false;
      } else {
        raised := true;
      }
    }

    /** `__exit__`: closes the client if there is one. */
    method Exit()
      modifies this`client
      ensures client == if old(client) == NoClient then NoClient else Closed
      ensures client != Open
    {
      if client != NoClient {
        client := Closed;
      }
    }

    /** `load_data`: at most one bulk insert, recorded in `inserts`. */
    method LoadData(collectionName: string, data: Option<seq<Document>>, store: InsertOutcome)
      returns (success: bool)
      modifies this`inserts
      ensures success == LoadOutcome(data, client != NoClient, store).success
      ensures inserts == old(inserts) + InsertsOf(dbName, collectionName, LoadOutcome(data, client != NoClient, store))
    {
      if IsEmpty(data) {
        return false;
      }
      if client == NoClient {
        return false;
      }
      inserts := inserts + [InsertCall(dbName, collectionName, data.value)];
      success := store == Acknowledged;
    }
  }
}
