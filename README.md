# News-headline ETL connector, modelled in Dafny

The connector pulls the top headlines from a news REST API, turns every
article into a document with a fixed set of fields and one ingestion
timestamp, and bulk-inserts the batch into the `newsapi_raw` collection of
the `news_db` MongoDB database. This project models the decisions the
connector takes, with the network, the clock, the environment and the
database replaced by their outcomes:

- `Extractor` — what `ETLExtractor.fetch_top_headlines` returns once the
  HTTP request has failed or produced a body (`status`, `articles`).
- `Transformer` — `ETLTransformer.transform_articles` as a loop that builds
  one normalised `Document` per article; the ingestion time is a parameter.
- `Loader` — the `ETLLoader` class: its client state (`None`, open,
  closed), `__enter__`, `__exit__`, and `load_data` with a log of the bulk
  inserts attempted; the guard of `load_data` is the function
  `LoadOutcome`.
- `Pipeline` — `run_etl`: configuration check, extract, transform, load,
  with an early exit after each stage; it reports which stages ran, what
  was inserted, and that the client is never left open.

Three behaviours of the code shape the model:
- an empty or missing article list makes `transform_articles` return
  `None`, not an empty list;
- when `MongoClient(...)` raises inside `__enter__`, the exception is
  re-raised and `run_etl` does not catch it, so such a run ends with an
  escaping exception (`ConnectRaised`), not a logged failure;
- `fetch_top_headlines` makes exactly one request, with no retry.

## Model

| member | source | states |
|---|---|---|
| `Extractor.FetchTopHeadlines` | ETL_Connector/etl_connector.py:31-43 | articles are returned exactly when the request succeeded, the status is the string "ok" and the body has articles; a request failure, a missing or other status, or missing articles give `None` |
| `Transformer.FieldOrNull` | ETL_Connector/etl_connector.py:56-62 | `article.get(key)`: the article's value when the key is present, null when it is missing |
| `Transformer.Normalize` | ETL_Connector/etl_connector.py:55-63 | a document has exactly the seven content fields, each equal to the article's field or null, and carries the given ingestion timestamp |
| `Transformer.NormalizeIgnoresOtherKeys` | ETL_Connector/etl_connector.py:55-62 | no key outside the seven content fields reaches the document: articles agreeing on those fields give equal documents |
| `Transformer.TransformArticles` | ETL_Connector/etl_connector.py:47-65 | `None` exactly for a missing or empty list; otherwise a non-empty list of the same length, the i-th document normalised from the i-th article (no article dropped or reordered), all sharing the one ingestion timestamp |
| `Loader.LoadOutcome` | ETL_Connector/etl_connector.py:89-102 | empty or missing data gives `False` and no insert; with a client, non-empty data goes whole to one bulk insert; the result is `True` exactly when that insert succeeded; a missing client (the caught `TypeError`) gives `False` and no insert |
| `Loader.InsertsOf` | ETL_Connector/etl_connector.py:94-97 | one `load_data` call adds at most one insert to the store's log, into the loader's database and the named collection |
| `Loader.ETLLoader.constructor` | ETL_Connector/etl_connector.py:70-73 | a new loader keeps its URI and database name and has no client |
| `Loader.ETLLoader.Enter` | ETL_Connector/etl_connector.py:75-82 | the client is open when the connection was created; otherwise it is unchanged and the exception is re-raised |
| `Loader.ETLLoader.Exit` | ETL_Connector/etl_connector.py:84-87 | a client that exists is closed; without one nothing happens; afterwards no client is open |
| `Loader.ETLLoader.LoadData` | ETL_Connector/etl_connector.py:89-102 | returns the guard's result and appends to the store's log exactly the insert the guard decided on |
| `Pipeline.RunEtl` | ETL_Connector/etl_connector.py:104-143 | stages run in order extract, transform, load; the outcome is fixed in both directions: missing key exactly when the key is unset, missing URI exactly when the key is set and the URI is not (both before extraction), extraction failed exactly when the configuration is complete and no articles came back, connect raised exactly when the load stage is reached and the connection fails, load failed exactly when the insert was attempted and raised, completed exactly when it was attempted and succeeded; the post-transform failure is unreachable; at most one insert, holding the normalised articles in order, into `news_db.newsapi_raw`; the client is never left open |

## Left out

- The HTTP request itself (URL, query parameters, headers, `response.json()`): replaced by its outcome. An undecodable body counts as a request failure; this assumes requests 2.27 or later, where the JSON decode error is a `RequestException`. With older versions it is a plain `ValueError`, which escapes `fetch_top_headlines` and `run_etl`; that escape is not modelled.
- A response with a status below 400 whose JSON body is not an object (an array, a string, a number): `data.get('status')` then raises `AttributeError`, which the `RequestException` handler does not catch, so it escapes `fetch_top_headlines` and `run_etl`. `HttpOutcome` has no case for it, so the model does not capture this crash.
- An `articles` member that is not a list of JSON objects, except a falsy one (`0`, `false`, `""`, `{}`), which `run_etl` reports as an extraction failure (etl_connector.py:125-127): a non-empty non-list, or a list holding a non-object, makes `transform_articles` raise, and the code does not handle it.
- `MongoClient` connection, database and collection lookup and `insert_many` internals: replaced by whether the connection was created and whether the insert returned; a partially applied failing insert is recorded as the one attempted insert.
- `os.getenv`, `load_dotenv` and logging: the environment values are parameters, log messages are folded into the run outcome.
- `datetime.utcnow()`: the ingestion time is a parameter.
- JSON floating-point numbers: numbers are integers in the model.
- The count of inserted documents, which is only logged.
