/**
 * `run_etl`: configuration check, then extract, transform and load, leaving
 * early as soon as a stage has nothing to hand on. The environment, the HTTP
 * outcome, the clock, the connection and the insert are parameters.
 */
module Pipeline {
  import opened Wrappers
  import opened Extractor
  import opened Transformer
  import opened Loader

  const DbName: string := "news_db"
  const CollectionName: string := "newsapi_raw"

  /** The two environment variables `run_etl` reads. */
  datatype Env = Env(newsApiKey: Option<string>, mongoUri: Option<string>)

  /** The stages of a run that do work beyond the configuration check. */
  datatype Stage = Extract | Transform | Load

  /** The order in which the stages run. */
  const Stages: seq<Stage> := [Extract, Transform, Load]

  /** How a run ends: the message it logs last, or the exception it lets escape. */
  datatype RunOutcome =
    | MissingApiKey
    | MissingMongoUri
    | ExtractFailed
    | TransformFailed
    | ConnectRaised
    | LoadFailed
    | Completed

  predicate ConfigOk(env: Env) {
    IsSet(env.newsApiKey) && IsSet(env.mongoUri)
  }

  /**
   * One run. Besides its outcome it reports the stages that ran, the bulk
   * inserts attempted, and the loader's client state when the
   * load stage was reached (`None` otherwise).
   */
  method RunEtl(env: Env, http: HttpOutcome, now: Timestamp, connects: bool, store: InsertOutcome)
    returns (outcome: RunOutcome, stages: seq<Stage>, stored: seq<InsertCall>, client: Option<ClientState>)
    ensures |stages| <= |Stages| && stages == Stages[..|stages|]
    ensures outcome == MissingApiKey <==> !IsSet(env.newsApiKey)
    ensures outcome == MissingMongoUri <==> IsSet(env.newsApiKey) && !IsSet(env.mongoUri)
    ensures !ConfigOk(env) ==> stages == []
    ensures Extract in stages <==> ConfigOk(env)
    ensures Transform in stages <==> ConfigOk(env) && !IsEmpty(FetchTopHeadlines(http))
    ensures Load in stages <==> Transform in stages
    ensures outcome == ExtractFailed <==> ConfigOk(env) && IsEmpty(FetchTopHeadlines(http))
    ensures outcome != TransformFailed
    ensures outcome == ConnectRaised <==> Load in stages && !connects
    ensures |stored| <= 1
    ensures stored != [] <==> Load in stages && connects
    ensures stored != [] ==>
              var articles := FetchTopHeadlines(http).value;
              && stored[0].db == DbName && stored[0].collection == CollectionName
              && |stored[0].docs| == |articles|
              && forall i :: 0 <= i < |articles| ==> stored[0].docs[i] == Normalize(articles[i], now)
    ensures outcome == Completed <==> stored != [] && store == Acknowledged
    ensures outcome == LoadFailed <==> stored != [] && store == Raised
    ensures client.Some? <==> Load in stages
    ensures client.Some? ==> client.value != Open
  {
    stages, stored, client := [], [], None;
    if !IsSet(env.newsApiKey) {
      return MissingApiKey, stages, stored, client;
    }
    if !IsSet(env.mongoUri) {
      return MissingMongoUri, stages, stored, client;
    }

    stages := stages + [Extract];
    var articles := FetchTopHeadlines(http);
    if IsEmpty(articles) {
      return ExtractFailed, stages, stored, client;
    }

    stages := stages + [Transform];
    var transformed := TransformArticles(articles, now);
    if IsEmpty(transformed) {
      return TransformFailed, stages, stored, client;
    }

    stages := stages + [Load];
    var loader := new ETLLoader(env.mongoUri.value, DbName);
    var raised := loader.Enter(connects);
    if raised {
      // `__enter__` re-raised and `run_etl` does not catch: `__exit__` is not called.
      return ConnectRaised, stages, loader.inserts, Some(loader.client);
    }
    var success := loader.LoadData(CollectionName, transformed, store);
    loader.Exit();
    outcome := if success then Completed else LoadFailed;
    stored, client := loader.inserts, Some(loader.client);
  }
}
