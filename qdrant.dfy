/**
 * The connector between the tools and the vector store: entries, storing
 * one point, searching with the named-vector fallback, and provisioning a
 * collection with its payload indexes. The store itself is an in-memory
 * backend whose faults and result ranking are given from outside.
 */
module Qdrant {
  import opened Wrappers
  import opened PyDict
  import opened Values
  import opened Settings
  import opened Filters
  import VoyageAI

  type Vector = seq<real>
  type Payload = Dict<string, Value>

  /** `Entry`: a document and its optional metadata. */
  datatype Entry = Entry(content: string, metadata: Option<Payload> := None)

  /** `models.VectorParams`; the distance is always cosine. */
  datatype VectorParams = VectorParams(size: nat)

  datatype Point = Point(id: string, vector: Dict<string, Vector>, payload: Payload)

  /** A collection: its vector configuration, payload indexes and points by id. */
  datatype Collection = Collection(
    vectors: Dict<string, VectorParams>,
    indexes: Dict<string, IndexKind>,
    points: Dict<string, Point>)

  /** The name under which a collection created with one unnamed vector holds it. */
  const UNNAMED: string := ""

  /** The requests the connector sends, in the order it sends them. */
  datatype Request =
    | ExistsRequest(asked: Option<string>)
    | CreateRequest(name: string, vectors: Dict<string, VectorParams>)
    | IndexRequest(name: string, field: string, kind: IndexKind)
    | UpsertRequest(name: string, point: Point)
    | QueryRequest(name: string, query: Vector, using: Option<string>, limit: nat, filter: Option<Filter>)

  const NOT_CONFIGURED: string := "not configured in this collection"
  const VECTOR_WITH_NAME: string := "vector with name"

  /** The store's reply to a query naming a vector the collection does not have. */
  function VectorNotConfigured(vectorName: string): string {
    "Wrong input: Vector with name `" + vectorName + "` is " + NOT_CONFIGURED
  }

  /** The error-message test of the named-vector fallback. */
  predicate Retryable(message: string) {
    Contains(Lower(message), NOT_CONFIGURED) || Contains(Lower(message), VECTOR_WITH_NAME)
  }

  lemma NotConfiguredIsLower()
    ensures Lower(NOT_CONFIGURED) == NOT_CONFIGURED
  {
    forall i | 0 <= i < |NOT_CONFIGURED|
      ensures LowerChar(NOT_CONFIGURED[i]) == NOT_CONFIGURED[i]
    {
    }
  }

  /** The store's unknown-vector reply always triggers the fallback. */
  lemma NotConfiguredIsRetryable(vectorName: string)
    ensures Retryable(VectorNotConfigured(vectorName))
  {
    var head := "Wrong input: Vector with name `" + vectorName + "` is ";
    assert VectorNotConfigured(vectorName) == head + NOT_CONFIGURED;
    LowerAppend(head, NOT_CONFIGURED);
    NotConfiguredIsLower();
    ContainsPrefix(NOT_CONFIGURED, NOT_CONFIGURED);
    ContainsInSuffix(Lower(head), NOT_CONFIGURED, NOT_CONFIGURED);
  }

  /** `"document"` and `"metadata"`, as `store` writes them. */
  function PayloadOf(e: Entry): Payload {
    [("document", VStr(e.content)), (METADATA_PATH, if e.metadata.Some? then VDict(e.metadata.value) else VNone)]
  }

  const MISSING_DOCUMENT: string := "KeyError: 'document'"
  const INVALID_ENTRY: string := "ValidationError: Entry"

  /**
   * `Entry(content=payload["document"], metadata=payload.get("metadata"))`:
   * the document must be present and a string, the metadata absent, null or
   * a dictionary.
   */
  function EntryOf(p: Payload): (r: Result<Entry, string>)
    ensures r.Success? <==> (Get(p, "document").Some? && Get(p, "document").value.VStr?
      && (Get(p, METADATA_PATH).None? || Get(p, METADATA_PATH).value.VNone? || Get(p, METADATA_PATH).value.VDict?))
    ensures r.Success? ==> Get(p, "document") == Some(VStr(r.value.content))
    ensures r.Success? && r.value.metadata.Some? ==> Get(p, METADATA_PATH) == Some(VDict(r.value.metadata.value))
    ensures Get(p, "document").None? ==> r == Failure(MISSING_DOCUMENT)
  {
    var document := Get(p, "document");
    var metadata := Get(p, METADATA_PATH);
    if document.None? then Failure(MISSING_DOCUMENT)
    else if !document.value.VStr? then Failure(INVALID_ENTRY)
    else if metadata.None? || metadata.value.VNone? then Success(Entry(document.value.s, None))
    else if metadata.value.VDict? then Success(Entry(document.value.s, Some(metadata.value.entries)))
    else Failure(INVALID_ENTRY)
  }

  /** Reading back a stored payload gives the stored entry. */
  lemma EntryRoundTrip(e: Entry)
    ensures EntryOf(PayloadOf(e)) == Success(e)
  {
    var p := PayloadOf(e);
    assert Find(p, "document") == Some(0);
    assert Find(p, METADATA_PATH) == Some(1);
  }

  /** The result list, in backend order; the first point that does not convert raises. */
  function EntriesOf(points: seq<Point>): (r: Result<seq<Entry>, string>)
    ensures r.Success? ==> (|r.value| == |points|
      && forall i :: 0 <= i < |points| ==> EntryOf(points[i].payload) == Success(r.value[i]))
    ensures r.Failure? ==>
      exists i :: 0 <= i < |points| && EntryOf(points[i].payload) == Failure(r.error)
        && forall j :: 0 <= j < i ==> EntryOf(points[j].payload).Success?
  {
    if |points| == 0 then Success([])
    else
      var front := points[..|points| - 1];
      assert forall j :: 0 <= j < |front| ==> front[j] == points[j];
      match EntriesOf(front)
      case Failure(e) => Failure(e)
      case Success(prefix) =>
        match EntryOf(points[|points| - 1].payload)
        case Failure(e) => Failure(e)
        case Success(last) => Success(prefix + [last])
  }

  /**
   * The store, held in memory. Which requests fail and in which order a query
   * ranks points are decided outside the model and given as functions.
   */
  class Backend {
    var collections: map<string, Collection>
    ghost var log: seq<Request>

    /** The error, if any, of a query on a collection with the given `using`. */
    const queryFault: (string, Option<string>) -> Option<string>
    /** The number of payload index requests made so far. */
    var indexAttempts: nat
    /**
     * The errors of the index requests that fail, by collection, field and
     * attempt number: a fault may pass, or appear, between attempts.
     */
    const indexFaults: map<(string, string, nat), string>

    /** The error, if any, of the index request on `field` of `name` made as attempt number `attempt`. */
    function IndexFault(name: string, field: string, attempt: nat): Option<string> {
      if (name, field, attempt) in indexFaults then Some(indexFaults[(name, field, attempt)]) else None
    }

    /** The points a query returns, best first, before the limit is applied. */
    const rank: (Collection, Vector, string, Option<Filter>) -> seq<Point>

    constructor(queryFault: (string, Option<string>) -> Option<string>,
                indexFaults: map<(string, string, nat), string>,
                rank: (Collection, Vector, string, Option<Filter>) -> seq<Point>)
      ensures collections == map[] && log == [] && indexAttempts == 0
      ensures this.queryFault == queryFault && this.indexFaults == indexFaults && this.rank == rank
    {
      collections := map[];
      log := [];
      indexAttempts := 0;
      this.queryFault := queryFault;
      this.indexFaults := indexFaults;
      this.rank := rank;
    }

    /** The reply to a query: a fault, an unknown vector name, or the ranked points cut to the limit. */
    function Answer(name: string, c: Collection, query: Vector, using: Option<string>, limit: nat, filter: Option<Filter>)
      : (r: Result<seq<Point>, string>)
      ensures queryFault(name, using).Some? ==> r == Failure(queryFault(name, using).value)
      ensures queryFault(name, using).None? && !HasKey(c.vectors, if using.Some? then using.value else UNNAMED) ==>
        r == Failure(VectorNotConfigured(if using.Some? then using.value else UNNAMED))
      ensures r.Success? ==> |r.value| <= limit
    {
      var vectorName := if using.Some? then using.value else UNNAMED;
      if queryFault(name, using).Some? then Failure(queryFault(name, using).value)
      else if !HasKey(c.vectors, vectorName) then Failure(VectorNotConfigured(vectorName))
      else Success(Take(rank(c, query, vectorName, filter), limit))
    }

    /** The indexes after one `create_payload_index` request, made as attempt number `attempt`. */
    function WithIndex(name: string, indexes: Dict<string, IndexKind>, field: string, kind: IndexKind, attempt: nat): Dict<string, IndexKind> {
      if IndexFault(name, field, attempt).Some? then indexes else Put(indexes, field, kind)
    }

    /** A request leaves every other field alone, and a successful one sets its field's kind. */
    lemma WithIndexGet(name: string, indexes: Dict<string, IndexKind>, field: string, kind: IndexKind, attempt: nat, k: string)
      ensures k != field ==> Get(WithIndex(name, indexes, field, kind, attempt), k) == Get(indexes, k)
      ensures IndexFault(name, field, attempt).None? ==> Get(WithIndex(name, indexes, field, kind, attempt), field) == Some(kind)
      ensures IndexFault(name, field, attempt).Some? ==> WithIndex(name, indexes, field, kind, attempt) == indexes
    {
    }

    method CollectionExists(name: Option<string>) returns (exists_: bool)
      modifies this
      ensures exists_ <==> name.Some? && name.value in collections
      ensures collections == old(collections) && log == old(log) + [ExistsRequest(name)]
      ensures indexAttempts == old(indexAttempts)
    {
      exists_ := name.Some? && name.value in collections;
      log := log + [ExistsRequest(name)];
    }

    method CreateCollection(name: string, vectors: Dict<string, VectorParams>)
      requires name !in collections
      modifies this
      ensures collections == old(collections)[name := Collection(vectors, [], [])]
      ensures log == old(log) + [CreateRequest(name, vectors)]
      ensures indexAttempts == old(indexAttempts)
    {
      collections := collections[name := Collection(vectors, [], [])];
      log := log + [CreateRequest(name, vectors)];
    }

    /** The collections after that request on the collection `name`. */
    function Indexed(cols: map<string, Collection>, name: string, field: string, kind: IndexKind, attempt: nat): (r: map<string, Collection>)
      requires name in cols
      ensures r.Keys == cols.Keys
    {
      cols[name := cols[name].(indexes := WithIndex(name, cols[name].indexes, field, kind, attempt))]
    }

    method CreatePayloadIndex(name: string, field: string, kind: IndexKind) returns (error: Option<string>)
      requires name in collections
      modifies this
      ensures error == IndexFault(name, field, old(indexAttempts))
      ensures collections == Indexed(old(collections), name, field, kind, old(indexAttempts))
      ensures log == old(log) + [IndexRequest(name, field, kind)]
      ensures indexAttempts == old(indexAttempts) + 1
    {
      error := IndexFault(name, field, indexAttempts);
      var c := collections[name];
      collections := collections[name := c.(indexes := WithIndex(name, c.indexes, field, kind, indexAttempts))];
      log := log + [IndexRequest(name, field, kind)];
      indexAttempts := indexAttempts + 1;
    }

    method Upsert(name: string, point: Point)
      requires name in collections
      modifies this
      ensures collections == old(collections)[name :=
        old(collections)[name].(points := Put(old(collections)[name].points, point.id, point))]
      ensures log == old(log) + [UpsertRequest(name, point)]
      ensures indexAttempts == old(indexAttempts)
    {
      var c := collections[name];
      collections := collections[name := c.(points := Put(c.points, point.id, point))];
      log := log + [UpsertRequest(name, point)];
    }

    method QueryPoints(name: string, query: Vector, using: Option<string>, limit: nat, filter: Option<Filter>)
      returns (r: Result<seq<Point>, string>)
      requires name in collections
      modifies this
      ensures r == Answer(name, old(collections)[name], query, using, limit, filter)
      ensures collections == old(collections)
      ensures log == old(log) + [QueryRequest(name, query, using, limit, filter)]
      ensures indexAttempts == old(indexAttempts)
    {
      r := Answer(name, collections[name], query, using, limit, filter);
      log := log + [QueryRequest(name, query, using, limit, filter)];
    }
  }

  /** The arguments of one `search` call: query text, collection, limit and filter. */
  datatype SearchArgs = SearchArgs(query: string, collectionName: string, limit: nat, filter: Option<Filter>)

  /** What the connector needs of an embedding provider: the named vector it fills. */
  datatype EmbeddingProvider = EmbeddingProvider(vectorName: string, vectorSize: nat)

  /** The VoyageAI provider for a model. */
  function VoyageProvider(modelName: string): (p: EmbeddingProvider)
    ensures p.vectorSize > 0 && StartsWith(p.vectorName, "voyage-")
  {
    VoyageAI.VectorSizePositive(modelName);
    VoyageAI.VectorNameShape(modelName);
    EmbeddingProvider(VoyageAI.VectorName(modelName), VoyageAI.VectorSize(modelName))
  }

  /** `collection_name or self._default_collection_name`: an empty name counts as none. */
  function Resolve(arg: Option<string>, default: Option<string>): Option<string> {
    if arg.Some? && arg.value != "" then arg else default
  }

  const ASSERTION_ERROR: string := "AssertionError: collection_name is None"

  class QdrantConnector {
    const client: Backend
    const defaultCollection: Option<string>
    const provider: EmbeddingProvider
    const fieldIndexes: Option<Dict<string, IndexKind>>
    /** The texts handed to the embedding provider, in order. */
    ghost var embedded: seq<string>

    constructor(client: Backend, collectionName: Option<string>, provider: EmbeddingProvider,
                fieldIndexes: Option<Dict<string, IndexKind>> := None)
      ensures this.client == client && defaultCollection == collectionName
      ensures this.provider == provider && this.fieldIndexes == fieldIndexes && embedded == []
    {
      this.client := client;
      defaultCollection := collectionName;
      this.provider := provider;
      this.fieldIndexes := fieldIndexes;
      embedded := [];
    }

    /** `if self._field_indexes:` an absent or empty map asks for no index. */
    function Configured(): Dict<string, IndexKind> {
      if fieldIndexes.Some? then fieldIndexes.value else []
    }

    /** The configuration of a collection the connector creates: one named vector. */
    function VectorsConfig(): Dict<string, VectorParams> {
      [(provider.vectorName, VectorParams(provider.vectorSize))]
    }

    /**
     * The indexes after requesting the first `n` fields of `fields` in turn,
     * the first request being attempt number `start`; failed requests change
     * nothing.
     */
    function IndexesUpTo(name: string, indexes: Dict<string, IndexKind>, fields: Dict<string, IndexKind>, start: nat, n: nat): Dict<string, IndexKind>
      requires n <= |fields|
      decreases n
    {
      if n == 0 then indexes
      else client.WithIndex(name, IndexesUpTo(name, indexes, fields, start, n - 1), fields[n - 1].0, fields[n - 1].1, start + n - 1)
    }

    /** The indexes after requesting every field of `fields`. */
    function IndexesAfter(name: string, indexes: Dict<string, IndexKind>, fields: Dict<string, IndexKind>, start: nat): Dict<string, IndexKind> {
      IndexesUpTo(name, indexes, fields, start, |fields|)
    }

    function IndexRequests(name: string, fields: Dict<string, IndexKind>): (rs: seq<Request>)
      ensures |rs| == |fields|
      ensures forall i :: 0 <= i < |fields| ==> rs[i] == IndexRequest(name, fields[i].0, fields[i].1)
    {
      seq(|fields|, i requires 0 <= i < |fields| => IndexRequest(name, fields[i].0, fields[i].1))
    }

    /** The collection `_ensure_collection_exists` leaves behind, its first index request being attempt `start`. */
    function Ensured(collections: map<string, Collection>, name: string, start: nat): Collection {
      var base := if name in collections then collections[name] else Collection(VectorsConfig(), [], []);
      base.(indexes := IndexesAfter(name, base.indexes, Configured(), start))
    }

    function EnsureRequests(collections: map<string, Collection>, name: string): seq<Request> {
      [ExistsRequest(Some(name))]
        + (if name in collections then [] else [CreateRequest(name, VectorsConfig())])
        + IndexRequests(name, Configured())
    }

    /**
     * `_ensure_collection_exists`: create the collection only when it is
     * absent, then request every configured index, ignoring every failure.
     */
    method EnsureCollectionExists(name: string)
      modifies client
      ensures client.collections == old(client.collections)[name := Ensured(old(client.collections), name, old(client.indexAttempts))]
      ensures client.log == old(client.log) + EnsureRequests(old(client.collections), name)
      ensures client.indexAttempts == old(client.indexAttempts) + |Configured()|
    {
      ghost var before := client.collections;
      ghost var base := if name in before then before[name] else Collection(VectorsConfig(), [], []);
      var exists_ := client.CollectionExists(Some(name));
      if !exists_ {
        client.CreateCollection(name, VectorsConfig());
      } else {
        assert before[name := base] == before;
      }
      assert client.collections == before[name := base];
      assert client.log == old(client.log) + [ExistsRequest(Some(name))]
        + (if name in before then [] else [CreateRequest(name, VectorsConfig())]);
      ghost var sent := old(client.log) + [ExistsRequest(Some(name))]
        + (if name in before then [] else [CreateRequest(name, VectorsConfig())]);
      assert old(client.log) + EnsureRequests(before, name) == sent + IndexRequests(name, Configured());
      var fields := Configured();
      if |fields| > 0 {
        RequestIndexes(name, fields);
      } else {
        assert IndexRequests(name, fields) == [];
      }
    }

    /** The collections after requesting the first `n` fields of `fields` in turn on the collection `name`. */
    function IndexedUpTo(cols: map<string, Collection>, name: string, fields: Dict<string, IndexKind>, start: nat, n: nat): (r: map<string, Collection>)
      requires name in cols && n <= |fields|
      ensures r.Keys == cols.Keys
      decreases n
    {
      if n == 0 then cols
      else client.Indexed(IndexedUpTo(cols, name, fields, start, n - 1), name, fields[n - 1].0, fields[n - 1].1, start + n - 1)
    }

    /** The requests touch only the collection `name`, and only its indexes. */
    lemma {:induction false} IndexedOnlyIndexes(cols: map<string, Collection>, name: string, fields: Dict<string, IndexKind>, start: nat, n: nat)
      requires name in cols && n <= |fields|
      ensures IndexedUpTo(cols, name, fields, start, n) == cols[name := cols[name].(indexes := IndexesUpTo(name, cols[name].indexes, fields, start, n))]
      decreases n
    {
      var c := cols[name];
      if n == 0 {
        assert cols[name := c.(indexes := c.indexes)] == cols;
      } else {
        IndexedOnlyIndexes(cols, name, fields, start, n - 1);
        var x := IndexesUpTo(name, c.indexes, fields, start, n - 1);
        var y := client.WithIndex(name, x, fields[n - 1].0, fields[n - 1].1, start + n - 1);
        assert cols[name := c.(indexes := x)][name := c.(indexes := y)] == cols[name := c.(indexes := y)];
      }
    }

    /** The index loop of `_ensure_collection_exists`: one request per field, in order. */
    method RequestIndexes(name: string, fields: Dict<string, IndexKind>)
      requires name in client.collections
      modifies client
      ensures client.collections == old(client.collections)[name :=
        old(client.collections)[name].(indexes := IndexesAfter(name, old(client.collections)[name].indexes, fields, old(client.indexAttempts)))]
      ensures client.log == old(client.log) + IndexRequests(name, fields)
      ensures client.indexAttempts == old(client.indexAttempts) + |fields|
    {
      var i := 0;
      while i < |fields|
        invariant 0 <= i <= |fields|
        invariant client.collections == IndexedUpTo(old(client.collections), name, fields, old(client.indexAttempts), i)
        invariant client.indexAttempts == old(client.indexAttempts) + i
        invariant client.log == old(client.log) + IndexRequests(name, fields)[..i]
      {
        RequestIndex(name, fields, i, old(client.collections), old(client.indexAttempts), old(client.log));
        i := i + 1;
      }
      assert IndexRequests(name, fields)[..|fields|] == IndexRequests(name, fields);
      IndexedOnlyIndexes(old(client.collections), name, fields, old(client.indexAttempts), |fields|);
    }

    /** One turn of the index loop. */
    method RequestIndex(name: string, fields: Dict<string, IndexKind>, i: nat,
                        ghost cols: map<string, Collection>, ghost start: nat, ghost sent: seq<Request>)
      requires name in cols && i < |fields|
      requires client.collections == IndexedUpTo(cols, name, fields, start, i)
      requires client.indexAttempts == start + i
      requires client.log == sent + IndexRequests(name, fields)[..i]
      modifies client
      ensures client.collections == IndexedUpTo(cols, name, fields, start, i + 1)
      ensures client.indexAttempts == start + i + 1
      ensures client.log == sent + IndexRequests(name, fields)[..i + 1]
    {
      RequestsStep(name, fields, i);
      IndexedStep(cols, name, fields, start, i);
      var error := client.CreatePayloadIndex(name, fields[i].0, fields[i].1);
    }

    lemma RequestsStep(name: string, fields: Dict<string, IndexKind>, i: nat)
      requires i < |fields|
      ensures IndexRequests(name, fields)[..i + 1] == IndexRequests(name, fields)[..i] + [IndexRequest(name, fields[i].0, fields[i].1)]
    {
    }

    lemma IndexedStep(cols: map<string, Collection>, name: string, fields: Dict<string, IndexKind>, start: nat, i: nat)
      requires name in cols && i < |fields|
      ensures IndexedUpTo(cols, name, fields, start, i + 1) == client.Indexed(IndexedUpTo(cols, name, fields, start, i), name, fields[i].0, fields[i].1, start + i)
    {
    }

    /** A field no request names keeps whatever index it had. */
    lemma {:induction false} UntouchedIndex(name: string, indexes: Dict<string, IndexKind>, fields: Dict<string, IndexKind>, start: nat, n: nat, k: string)
      requires n <= |fields| && forall i :: 0 <= i < n ==> fields[i].0 != k
      ensures Get(IndexesUpTo(name, indexes, fields, start, n), k) == Get(indexes, k)
      decreases n
    {
      if n > 0 {
        UntouchedIndex(name, indexes, fields, start, n - 1, k);
      }
    }

    /** Requests only ever add indexes: a field that had one still has one afterwards. */
    lemma {:induction false} IndexesOnlyGrow(name: string, indexes: Dict<string, IndexKind>, fields: Dict<string, IndexKind>, start: nat, n: nat, k: string)
      requires n <= |fields| && HasKey(indexes, k)
      ensures HasKey(IndexesUpTo(name, indexes, fields, start, n), k)
      decreases n
    {
      if n > 0 {
        IndexesOnlyGrow(name, indexes, fields, start, n - 1, k);
        var inner := IndexesUpTo(name, indexes, fields, start, n - 1);
        assert Get(inner, k).Some?;
        if k != fields[n - 1].0 {
          assert Get(client.WithIndex(name, inner, fields[n - 1].0, fields[n - 1].1, start + n - 1), k) == Get(inner, k);
        }
      }
    }

    /** A configured field whose index already has its configured kind keeps it, whatever the requests' faults. */
    lemma {:induction false} ConfiguredKindKept(name: string, indexes: Dict<string, IndexKind>, fields: Dict<string, IndexKind>, start: nat, n: nat, j: nat)
      requires UniqueKeys(fields) && j < n <= |fields| && Get(indexes, fields[j].0) == Some(fields[j].1)
      ensures Get(IndexesUpTo(name, indexes, fields, start, n), fields[j].0) == Some(fields[j].1)
      decreases n
    {
      if j < n - 1 {
        ConfiguredKindKept(name, indexes, fields, start, n - 1, j);
        assert fields[j].0 != fields[n - 1].0;
      } else {
        UntouchedIndex(name, indexes, fields, start, n - 1, fields[j].0);
      }
    }

    /** A configured index whose request succeeded is present with its kind after the loop. */
    lemma {:induction false} IndexPresentAfter(name: string, indexes: Dict<string, IndexKind>, fields: Dict<string, IndexKind>, start: nat, n: nat, j: nat)
      requires UniqueKeys(fields) && j < n <= |fields| && client.IndexFault(name, fields[j].0, start + j).None?
      ensures Get(IndexesUpTo(name, indexes, fields, start, n), fields[j].0) == Some(fields[j].1)
      decreases n
    {
      var inner := IndexesUpTo(name, indexes, fields, start, n - 1);
      if j < n - 1 {
        IndexPresentAfter(name, indexes, fields, start, n - 1, j);
        assert fields[j].0 != fields[n - 1].0;
      }
      client.WithIndexGet(name, inner, fields[n - 1].0, fields[n - 1].1, start + n - 1, fields[j].0);
    }

    /**
     * Requesting the configured indexes again, on the indexes a first round
     * produced, changes nothing when every request that succeeds the second
     * time had succeeded the first time.
     */
    lemma {:induction false} IndexesAfterIdempotent(name: string, indexes: Dict<string, IndexKind>, fields: Dict<string, IndexKind>, first: nat, second: nat)
      requires UniqueKeys(fields)
      requires forall j :: 0 <= j < |fields| && client.IndexFault(name, fields[j].0, second + j).None? ==>
        client.IndexFault(name, fields[j].0, first + j).None?
      ensures IndexesAfter(name, IndexesAfter(name, indexes, fields, first), fields, second) == IndexesAfter(name, indexes, fields, first)
    {
      var done := IndexesAfter(name, indexes, fields, first);
      var i := 0;
      while i < |fields|
        invariant 0 <= i <= |fields|
        invariant IndexesUpTo(name, done, fields, second, i) == done
      {
        if client.IndexFault(name, fields[i].0, second + i).None? {
          IndexPresentAfter(name, indexes, fields, first, |fields|, i);
          PutSame(done, fields[i].0, fields[i].1);
        }
        i := i + 1;
      }
    }

    /**
     * Provisioning a collection a second time, whatever the index faults:
     * it finds the collection, creates nothing, keeps its vectors, points and
     * every index it had, and every index the first run created keeps its kind.
     */
    lemma EnsureTwiceKeeps(collections: map<string, Collection>, name: string, first: nat, second: nat, j: nat, k: string)
      requires UniqueKeys(Configured())
      ensures var once := Ensured(collections, name, first);
        var twice := Ensured(collections[name := once], name, second);
        && twice.vectors == once.vectors && twice.points == once.points
        && (HasKey(once.indexes, k) ==> HasKey(twice.indexes, k))
        && (j < |Configured()| && client.IndexFault(name, Configured()[j].0, first + j).None? ==>
              Get(twice.indexes, Configured()[j].0) == Some(Configured()[j].1))
      ensures EnsureRequests(collections[name := Ensured(collections, name, first)], name)
        == [ExistsRequest(Some(name))] + IndexRequests(name, Configured())
    {
      var base := if name in collections then collections[name] else Collection(VectorsConfig(), [], []);
      var once := Ensured(collections, name, first);
      assert Ensured(collections[name := once], name, second) == once.(indexes := IndexesAfter(name, once.indexes, Configured(), second));
      SecondRoundKeeps(name, base.indexes, first, second, j, k);
    }

    /** The index half of `EnsureTwiceKeeps`: a second round of requests loses no index and no created kind. */
    lemma SecondRoundKeeps(name: string, indexes: Dict<string, IndexKind>, first: nat, second: nat, j: nat, k: string)
      requires UniqueKeys(Configured())
      ensures var once := IndexesAfter(name, indexes, Configured(), first);
        var twice := IndexesAfter(name, once, Configured(), second);
        && (HasKey(once, k) ==> HasKey(twice, k))
        && (j < |Configured()| && client.IndexFault(name, Configured()[j].0, first + j).None? ==>
              Get(twice, Configured()[j].0) == Some(Configured()[j].1))
    {
      var fields := Configured();
      var once := IndexesAfter(name, indexes, fields, first);
      if HasKey(once, k) {
        IndexesOnlyGrow(name, once, fields, second, |fields|, k);
      }
      if j < |fields| && client.IndexFault(name, fields[j].0, first + j).None? {
        IndexPresentAfter(name, indexes, fields, first, |fields|, j);
        ConfiguredKindKept(name, once, fields, second, |fields|, j);
      }
    }

    /**
     * Provisioning a collection twice leaves it as provisioning it once when
     * no index request succeeds the second time that failed the first time.
     */
    lemma EnsureIdempotent(collections: map<string, Collection>, name: string, first: nat, second: nat)
      requires UniqueKeys(Configured())
      requires forall j :: 0 <= j < |Configured()| && client.IndexFault(name, Configured()[j].0, second + j).None? ==>
        client.IndexFault(name, Configured()[j].0, first + j).None?
      ensures Ensured(collections[name := Ensured(collections, name, first)], name, second) == Ensured(collections, name, first)
    {
      var base := if name in collections then collections[name] else Collection(VectorsConfig(), [], []);
      IndexesAfterIdempotent(name, base.indexes, Configured(), first, second);
    }

    /** An existing collection keeps its vectors and points; only its indexes may grow. */
    lemma EnsureKeepsExisting(collections: map<string, Collection>, name: string, start: nat)
      requires name in collections
      ensures Ensured(collections, name, start).vectors == collections[name].vectors
      ensures Ensured(collections, name, start).points == collections[name].points
      ensures |EnsureRequests(collections, name)| == 1 + |Configured()|
    {
    }

    /** A collection the connector creates holds exactly the provider's named vector and no point. */
    lemma EnsureCreatesNamedVector(collections: map<string, Collection>, name: string, start: nat)
      requires name !in collections
      ensures Get(Ensured(collections, name, start).vectors, provider.vectorName) == Some(VectorParams(provider.vectorSize))
      ensures |Ensured(collections, name, start).vectors| == 1 && Ensured(collections, name, start).points == []
      ensures EnsureRequests(collections, name)[1] == CreateRequest(name, VectorsConfig())
    {
    }

    /** The point `store` writes. */
    function PointOf(entry: Entry, vector: Vector, id: string): Point {
      Point(id, [(provider.vectorName, vector)], PayloadOf(entry))
    }

    /**
     * `store`: resolve the collection (it must be given or defaulted), make
     * sure it exists, embed the content and upsert exactly one point. `vector`
     * is the provider's embedding of the content, `id` the fresh point id.
     */
    method Store(entry: Entry, collectionName: Option<string>, vector: Vector, id: string) returns (r: Result<(), string>)
      modifies client, this
      ensures Resolve(collectionName, defaultCollection).None? ==>
        r == Failure(ASSERTION_ERROR) && client.collections == old(client.collections)
        && client.log == old(client.log) && client.indexAttempts == old(client.indexAttempts)
        && embedded == old(embedded)
      ensures Resolve(collectionName, defaultCollection).Some? ==>
        var name := Resolve(collectionName, defaultCollection).value;
        var ensured := Ensured(old(client.collections), name, old(client.indexAttempts));
        && r == Success(())
        && client.collections == old(client.collections)[name :=
             ensured.(points := Put(ensured.points, id, PointOf(entry, vector, id)))]
        && client.log == old(client.log) + EnsureRequests(old(client.collections), name)
             + [UpsertRequest(name, PointOf(entry, vector, id))]
        && client.indexAttempts == old(client.indexAttempts) + |Configured()|
        && embedded == old(embedded) + [entry.content]
    {
      var name := Resolve(collectionName, defaultCollection);
      if name.None? {
        return Failure(ASSERTION_ERROR);
      }
      EnsureCollectionExists(name.value);
      embedded := embedded + [entry.content];
      client.Upsert(name.value, PointOf(entry, vector, id));
      r := Success(());
    }

    function FirstAnswer(name: string, c: Collection, query: Vector, limit: nat, filter: Option<Filter>): Result<seq<Point>, string> {
      client.Answer(name, c, query, Some(provider.vectorName), limit, filter)
    }

    /** Whether the first query fails with a message that triggers the fallback. */
    predicate Retried(name: string, c: Collection, query: Vector, limit: nat, filter: Option<Filter>) {
      var first := FirstAnswer(name, c, query, limit, filter);
      first.Failure? && Retryable(first.error)
    }

    /** The search outcome on an existing collection, after provisioning. */
    function SearchOutcome(name: string, c: Collection, query: Vector, limit: nat, filter: Option<Filter>): Result<seq<Entry>, string> {
      var answer :=
        if Retried(name, c, query, limit, filter) then client.Answer(name, c, query, None, limit, filter)
        else FirstAnswer(name, c, query, limit, filter);
      match answer
      case Failure(e) => Failure(e)
      case Success(points) => EntriesOf(points)
    }

    function QueryRequests(name: string, c: Collection, query: Vector, limit: nat, filter: Option<Filter>): seq<Request> {
      [QueryRequest(name, query, Some(provider.vectorName), limit, filter)]
        + (if Retried(name, c, query, limit, filter) then [QueryRequest(name, query, None, limit, filter)] else [])
    }

    /**
     * `search`: an absent collection gives no results and no other request;
     * otherwise provision it, embed the query, and query the provider's
     * named vector, falling back once to the unnamed vector when the store
     * says the name is not configured. `vector` is the provider's embedding
     * of `query`.
     */
    method Search(query: string, vector: Vector, collectionName: Option<string>, limit: nat, filter: Option<Filter>)
      returns (r: Result<seq<Entry>, string>)
      modifies client, this
      ensures var name := Resolve(collectionName, defaultCollection);
        name.None? || name.value !in old(client.collections) ==>
          r == Success([]) && client.collections == old(client.collections)
          && client.log == old(client.log) + [ExistsRequest(name)]
          && client.indexAttempts == old(client.indexAttempts) && embedded == old(embedded)
      ensures var name := Resolve(collectionName, defaultCollection);
        name.Some? && name.value in old(client.collections) ==>
          var ensured := Ensured(old(client.collections), name.value, old(client.indexAttempts));
          && r == SearchOutcome(name.value, ensured, vector, limit, filter)
          && client.collections == old(client.collections)[name.value := ensured]
          && client.log == old(client.log) + [ExistsRequest(name)]
               + EnsureRequests(old(client.collections), name.value)
               + QueryRequests(name.value, ensured, vector, limit, filter)
          && client.indexAttempts == old(client.indexAttempts) + |Configured()|
          && embedded == old(embedded) + [query]
    {
      var name := Resolve(collectionName, defaultCollection);
      var exists_ := client.CollectionExists(name);
      if !exists_ {
        return Success([]);
      }
      EnsureCollectionExists(name.value);
      embedded := embedded + [query];
      r := QueryWithFallback(name.value, vector, limit, filter);
    }

    /**
     * The query of `search`: the provider's named vector first and, when the
     * store reports that name as not configured, once more on the unnamed
     * vector; any other error is raised again unchanged.
     */
    method QueryWithFallback(name: string, vector: Vector, limit: nat, filter: Option<Filter>)
      returns (r: Result<seq<Entry>, string>)
      requires name in client.collections
      modifies client
      ensures r == SearchOutcome(name, old(client.collections)[name], vector, limit, filter)
      ensures client.collections == old(client.collections)
      ensures client.log == old(client.log) + QueryRequests(name, old(client.collections)[name], vector, limit, filter)
      ensures client.indexAttempts == old(client.indexAttempts)
    {
      var results := client.QueryPoints(name, vector, Some(provider.vectorName), limit, filter);
      if results.Failure? {
        var message := Lower(results.error);
        if Contains(message, NOT_CONFIGURED) || Contains(message, VECTOR_WITH_NAME) {
          results := client.QueryPoints(name, vector, None, limit, filter);
          if results.Failure? {
            return Failure(results.error);
          }
        } else {
          return Failure(results.error);
        }
      }
      r := EntriesOf(results.value);
    }

    /** With the provider's vector configured and no fault, one query on it answers. */
    lemma NamedVectorServes(name: string, c: Collection, query: Vector, limit: nat, filter: Option<Filter>)
      requires client.queryFault(name, Some(provider.vectorName)).None? && HasKey(c.vectors, provider.vectorName)
      ensures SearchOutcome(name, c, query, limit, filter) == EntriesOf(Take(client.rank(c, query, provider.vectorName, filter), limit))
      ensures QueryRequests(name, c, query, limit, filter) == [QueryRequest(name, query, Some(provider.vectorName), limit, filter)]
    {
    }

    /**
     * A collection without the provider's named vector, such as one holding a
     * single unnamed vector, is queried a second time on the unnamed vector.
     */
    lemma FallbackToUnnamedVector(name: string, c: Collection, query: Vector, limit: nat, filter: Option<Filter>)
      requires client.queryFault(name, Some(provider.vectorName)).None? && !HasKey(c.vectors, provider.vectorName)
      requires client.queryFault(name, None).None? && HasKey(c.vectors, UNNAMED)
      ensures SearchOutcome(name, c, query, limit, filter) == EntriesOf(Take(client.rank(c, query, UNNAMED, filter), limit))
      ensures QueryRequests(name, c, query, limit, filter)
        == [QueryRequest(name, query, Some(provider.vectorName), limit, filter), QueryRequest(name, query, None, limit, filter)]
    {
      NotConfiguredIsRetryable(provider.vectorName);
    }

    /** Any other failure of the first query is raised unchanged, with no second query. */
    lemma OtherErrorsRaised(name: string, c: Collection, query: Vector, limit: nat, filter: Option<Filter>)
      requires FirstAnswer(name, c, query, limit, filter).Failure?
      requires !Retryable(FirstAnswer(name, c, query, limit, filter).error)
      ensures SearchOutcome(name, c, query, limit, filter) == Failure(FirstAnswer(name, c, query, limit, filter).error)
      ensures |QueryRequests(name, c, query, limit, filter)| == 1
    {
    }

    /** A search never returns more entries than its limit. */
    lemma SearchWithinLimit(name: string, c: Collection, query: Vector, limit: nat, filter: Option<Filter>)
      ensures SearchOutcome(name, c, query, limit, filter).Success? ==> |SearchOutcome(name, c, query, limit, filter).value| <= limit
    {
    }
  }
}
