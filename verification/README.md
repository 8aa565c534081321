# NASA APOD to Postgres DAG — a verified model

The repository is one Airflow DAG, `nasa_apod_postgres`. It runs four tasks in a
chain once a day:

1. `create_table` ensures that the table `apod_data` exists.
2. `extract_apod` fetches NASA's Astronomy Picture of the Day as JSON.
3. `transform_apod_data` picks five fields out of that JSON.
4. `load_data_to_postgres` inserts those fields as one new row.

This project models the pure part of that DAG in Dafny and proves what it
promises. The pure part has three pieces:

- **The transform** (`projection.dfy`, module `Projection`). It maps a decoded
  JSON object (`map<string, Json.Value>`) to a record with exactly the keys
  `title`, `explanation`, `url`, `date` and `media_type`. Each key is read with
  `.get(key, '')`.
- **The INSERT parameter tuple** (`insert.dfy`, module `Insert`). It builds the
  five values bound to `INSERT INTO apod_data (title, explanation, url, date,
  media_type)`. A missing key raises `KeyError`, and the first missing key is
  reported.
- **The task chain** (`dag.dfy`, module `Dag`). A run is a value with three
  parts: its state (`Pending → SchemaReady → Extracted → Transformed →
  Loaded`, or `Failed(task, error)`), the destination table as a sequence of
  rows, and the log of tasks that ran. The outcomes of the three external calls
  are supplied by a `World` value: the DDL, the HTTP request, and whether
  Postgres accepts the bound INSERT.

`json.dfy` (module `Json`) defines the decoded JSON value, including `Null`,
and the `dict.get` lookup.

**Null values and non-object bodies.** `response.get(key, '')` substitutes
`''` only for an absent key. A key present with `None` passes through as `Null`
(`Projection.NullPassesThrough`). On a decoded body that is not a JSON object,
`response.get` raises, and `Dag.Step` gives `Failed(TransformApodData, NotAnObject)`.

## Model

| member | source | states |
|---|---|---|
| Json.Get | dags/etl.py:48-52 | `m.get(key, default)`: the stored value whenever the key is present, `Null` included, and the default only when the key is absent. |
| Projection.Transform | dags/etl.py:46-55 | For every JSON object, including the empty one, the record has exactly the five keys. A key present in the response keeps its value verbatim, `Null` included. A key absent from the response becomes `''`. |
| Projection.NullPassesThrough | dags/etl.py:48-52 | A target key present with a null value yields `Null` in the record, not the empty string. |
| Projection.SameRecordIff | dags/etl.py:47-53 | Two responses give equal records if and only if their `.get(k, '')` lookups agree on each of the five keys. |
| Projection.OtherKeysIgnored | dags/etl.py:47-53 | Responses that agree on the five target keys give equal records, whatever other keys they carry. |
| Projection.Idempotent | dags/etl.py:47-55 | Transforming a record the transform produced returns that same record. |
| Projection.EmptyResponse | dags/etl.py:48-52 | The empty response gives five empty strings. |
| Projection.TitleOnlyResponse | dags/etl.py:48-52 | A response carrying only `title` keeps the title, and the other four fields are empty strings. |
| Insert.Parameters | dags/etl.py:63-74 | The tuple binds exactly when all five columns are keys of the record. When it binds, it has five elements and element i is the record's value for column i of the INSERT column list. Otherwise it reports the first missing column in list order, which is the `KeyError` Python raises. |
| Insert.ColumnsAreProjectionKeys | dags/etl.py:47-65 | The INSERT column list names exactly the keys of every record the transform returns, each one once. |
| Insert.TransformedRecordBinds | dags/etl.py:68-74 | A transform output always binds. Parameter i is the response's value for column i when that key is present, and `''` otherwise. |
| Dag.Step | dags/etl.py:80-84 | Each step runs exactly the next task of the chain and brings the run closer to a terminal state. A terminal run is left unchanged. The table changes only when a load succeeds, and then only by appending the loaded row. |
| Dag.Execute | dags/etl.py:80-84 | Every run ends either loaded or failed. A run that is already terminal is returned unchanged. Reaching `Loaded` appends exactly the loaded row to the table, and ending in any other state leaves the table unchanged. |
| Dag.StepConsistent | dags/etl.py:80-84 | One step keeps the log of tasks that ran equal to the prefix of the chain that the state has reached. |
| Dag.Pipeline | dags/etl.py:80-84 | One scheduled run of the whole DAG from `Pending` ends loaded or failed. A success appends exactly the loaded row to the table, and a failure leaves the table unchanged. The log of tasks that ran is the prefix of the chain the final state reached. |
| Dag.ExecuteConsistent | dags/etl.py:80-84 | From any state, the log of tasks that ran stays the prefix of the chain that the state has reached. |
| Dag.ChainOrder | dags/etl.py:80-84 | Tasks run in the order `create_table`, `extract_apod`, `transform_apod_data`, `load_data_to_postgres`. A successful run ran all four. In a failed run, the failed task is the last one in the log, and no later task of the chain ran. |
| Dag.Outcome | dags/etl.py:14-84 | Gives the stage and error of each failure: schema, transport, non-object body, or rejected insert. The load's row is the INSERT binding of the transform of exactly the extracted body. A success appends exactly that row, and any failure leaves the table unchanged. |
| Dag.LoadConsumesTransformOutput | dags/etl.py:82-84 | A loaded row is the binding of `transform(extract output)`. |
| Dag.ExtractFailureIsolated | dags/etl.py:80-82 | When the extraction fails, no row is inserted, and only `create_table` and `extract_apod` ran. |
| Dag.NeverMissingColumn | dags/etl.py:68-74 | A run never fails with `KeyError` at the load, because the load only receives a transform output. |
| Dag.RerunAppendsDuplicate | dags/etl.py:63-74 | Nothing enforces uniqueness: re-running a successful day with the same outcomes appends the same row a second time. |

## Left out

- The Airflow plumbing is not modelled: the `DAG` object, the `@task` decorators, and the scheduling parameters (`pendulum.now()`, `@daily`, `catchup=False`). These are framework and clock concerns. The chain is modelled as a plain sequential driver.
- The HTTP request is not modelled: `HttpOperator`, its endpoint and API key, and JSON decoding. These are network I/O behind a library. Their result is the `World.fetch` parameter: a decoded `Json.Value` or a transport failure.
- Postgres execution is left abstract: the effect of the `CREATE TABLE IF NOT EXISTS` DDL, SERIAL id assignment, and the type checks (`VARCHAR(255)`, `VARCHAR(50)`, parsing `date` as DATE). Whether the DDL succeeds is `World.schemaOk`. Whether an INSERT is accepted is the predicate `World.accepts` over the bound row. A row is stored as its five bound values, without the id.
- Connection and credential resolution (`my_postgres_connection`, `nasa_api`) is not modelled. It is external configuration.
- JSON numbers are modelled as exact `real` values. The transform and the tuple only copy values and compare them for equality, so binary floating-point rounding plays no part.
- Airflow's task retries and the `upstream_failed` bookkeeping are not modelled. A failed task simply ends the run, and the tasks after it never run.
