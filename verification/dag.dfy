/**
 The DAG `nasa_apod_postgres`: four tasks chained
 `create_table >> extract_apod`, `transform_apod_data(extract_apod.output)`,
 `load_data_to_postgres(transformed)`. A run is a value carrying its state,
 the destination table and the log of tasks that ran; the external calls
 (the DDL, the HTTP request, the INSERT) are fixed outcomes supplied by a `World`.
 */
module Dag {
  import opened Json
  import Projection
  import Insert

  /** The four tasks of the DAG. */
  datatype Task = CreateTable | ExtractApod | TransformApodData | LoadDataToPostgres

  /** The dependency chain, upstream first. */
  const Chain: seq<Task> := [CreateTable, ExtractApod, TransformApodData, LoadDataToPostgres]

  /** Where each task sits in the chain. */
  function Position(t: Task): nat
  {
    match t
    case CreateTable => 0
    case ExtractApod => 1
    case TransformApodData => 2
    case LoadDataToPostgres => 3
  }

  /** Why a task failed. */
  datatype Error =
    | SchemaError              // the CREATE TABLE statement failed
    | TransportError           // the GET request or the decoding of its body failed
    | NotAnObject              // `response.get` on a decoded body that is not a JSON object
    | MissingColumn(key: string) // `apod_data[key]` raised KeyError
    | PersistenceError         // the database rejected the INSERT

  /** What the HTTP task hands on: the decoded body, or a transport failure. */
  datatype Fetch = Fetched(body: Value) | FetchFailed

  /** One row of `apod_data` as bound by the INSERT, column by column
      (`Insert.Columns`); the SERIAL id is not part of the model. */
  type Row = seq<Value>

  /** The outcomes of the calls the DAG makes into systems outside it. */
  datatype World = World(
    schemaOk: bool,        // whether `CREATE TABLE IF NOT EXISTS` succeeds
    fetch: Fetch,          // what `extract_apod` returns
    accepts: Row -> bool   // whether Postgres accepts a bound INSERT (types, dates, lengths)
  )

  /** The state of one run. `Loaded` and `Failed` are terminal. */
  datatype State =
    | Pending
    | SchemaReady
    | Extracted(response: Value)
    | Transformed(record: map<string, Value>)
    | Loaded(row: Row)
    | Failed(task: Task, error: Error)

  /** A run: its state, the destination table, and the tasks that ran, in order. */
  datatype Run = Run(state: State, table: seq<Row>, ran: seq<Task>)

  predicate Terminal(s: State)
  {
    s.Loaded? || s.Failed?
  }

  /** Number of tasks still to run from a state. */
  function Remaining(s: State): nat
  {
    match s
    case Pending => 4
    case SchemaReady => 3
    case Extracted(_) => 2
    case Transformed(_) => 1
    case Loaded(_) => 0
    case Failed(_, _) => 0
  }

  /** The task a non-terminal state runs next. */
  function Next(s: State): Task
    requires !Terminal(s)
  {
    match s
    case Pending => CreateTable
    case SchemaReady => ExtractApod
    case Extracted(_) => TransformApodData
    case Transformed(_) => LoadDataToPostgres
  }

  /** Runs the next task. Exactly one task runs per step; the table changes only
      by appending the row a successful load inserts; a terminal run stays put. */
  function Step(run: Run, world: World): (r: Run)
    ensures Terminal(run.state) ==> r == run
    ensures !Terminal(run.state) ==> r.ran == run.ran + [Next(run.state)]
    ensures !Terminal(run.state) ==> Remaining(r.state) < Remaining(run.state)
    ensures r.state.Loaded? && !run.state.Loaded? ==> r.table == run.table + [r.state.row]
    ensures !(r.state.Loaded? && !run.state.Loaded?) ==> r.table == run.table
  {
    match run.state
    case Pending =>
      var ran := run.ran + [CreateTable];
      if world.schemaOk then Run(SchemaReady, run.table, ran)
      else Run(Failed(CreateTable, SchemaError), run.table, ran)
    case SchemaReady =>
      var ran := run.ran + [ExtractApod];
      (match world.fetch
       case Fetched(body) => Run(Extracted(body), run.table, ran)
       case FetchFailed => Run(Failed(ExtractApod, TransportError), run.table, ran))
    case Extracted(response) =>
      var ran := run.ran + [TransformApodData];
      (match response
       case Object(fields) => Run(Transformed(Projection.Transform(fields)), run.table, ran)
       case _ => Run(Failed(TransformApodData, NotAnObject), run.table, ran))
    case Transformed(record) =>
      var ran := run.ran + [LoadDataToPostgres];
      (match Insert.Parameters(record)
       case MissingKey(k) => Run(Failed(LoadDataToPostgres, MissingColumn(k)), run.table, ran)
       case Ok(params) =>
         if world.accepts(params) then Run(Loaded(params), run.table + [params], ran)
         else Run(Failed(LoadDataToPostgres, PersistenceError), run.table, ran))
    case Loaded(_) => run
    case Failed(_, _) => run
  }

  /** Steps until the run is terminal. */
  function Execute(run: Run, world: World): (r: Run)
    ensures Terminal(r.state)
    ensures Terminal(run.state) ==> r == run
    ensures r.state.Loaded? && !run.state.Loaded? ==> r.table == run.table + [r.state.row]
    ensures !r.state.Loaded? ==> r.table == run.table
    decreases Remaining(run.state)
  {
    if Terminal(run.state) then run else Execute(Step(run, world), world)
  }

  /** One scheduled run of the DAG against a table holding `table`. */
  function Pipeline(table: seq<Row>, world: World): (r: Run)
    ensures Terminal(r.state)
    ensures r.state.Loaded? ==> r.table == table + [r.state.row]
    ensures !r.state.Loaded? ==> r.table == table
    ensures Consistent(r)
  {
    ExecuteConsistent(Run(Pending, table, []), world);
    Execute(Run(Pending, table, []), world)
  }

  /** The log of a run is the prefix of the chain that its state has reached:
      a failed task is the last one that ran. */
  ghost predicate Consistent(run: Run)
  {
    match run.state
    case Pending => run.ran == []
    case SchemaReady => run.ran == Chain[..1]
    case Extracted(_) => run.ran == Chain[..2]
    case Transformed(_) => run.ran == Chain[..3]
    case Loaded(_) => run.ran == Chain
    case Failed(t, _) => run.ran == Chain[..Position(t) + 1]
  }

  lemma StepConsistent(run: Run, world: World)
    requires Consistent(run)
    ensures Consistent(Step(run, world))
  {
  }

  lemma {:induction false} ExecuteConsistent(run: Run, world: World)
    requires Consistent(run)
    ensures Consistent(Execute(run, world))
    decreases Remaining(run.state)
  {
    if !Terminal(run.state) {
      StepConsistent(run, world);
      ExecuteConsistent(Step(run, world), world);
    }
  }

  /** Tasks run in chain order and a run stops at its first failure: the log is
      a prefix of the chain ending at the failed task, and no later task runs. */
  lemma ChainOrder(table: seq<Row>, world: World)
    ensures var r := Pipeline(table, world);
            && (r.state.Loaded? ==> r.ran == Chain)
            && (r.state.Failed? ==> r.ran == Chain[..Position(r.state.task) + 1])
            && (r.state.Failed? ==> forall i :: 0 <= i < |r.ran| ==> Position(r.ran[i]) <= Position(r.state.task))
            && (r.state.Failed? ==> r.ran[|r.ran| - 1] == r.state.task)
  {
  }

  /** The whole run in one view: which task fails for which reason, and on
      success the row loaded is the INSERT binding of the transform of exactly
      the extracted body, appended to the table and nothing else changed. */
  lemma {:induction false} Outcome(table: seq<Row>, world: World)
    ensures var r := Pipeline(table, world);
            && (!world.schemaOk ==> r.state == Failed(CreateTable, SchemaError))
            && (world.schemaOk && world.fetch.FetchFailed? ==> r.state == Failed(ExtractApod, TransportError))
            && (world.schemaOk && world.fetch.Fetched? && !world.fetch.body.Object? ==>
                  r.state == Failed(TransformApodData, NotAnObject))
            && (world.schemaOk && world.fetch.Fetched? && world.fetch.body.Object? ==>
                  var row := Insert.Parameters(Projection.Transform(world.fetch.body.fields)).value;
                  && (world.accepts(row) ==> r.state == Loaded(row) && r.table == table + [row])
                  && (!world.accepts(row) ==> r.state == Failed(LoadDataToPostgres, PersistenceError)))
            && (!r.state.Loaded? ==> r.table == table)
  {
    var r0 := Run(Pending, table, []);
    var r1 := Step(r0, world);
    assert Pipeline(table, world) == Execute(r1, world);
    if !world.schemaOk {
      assert Execute(r1, world) == r1;
    } else {
      var r2 := Step(r1, world);
      assert Execute(r1, world) == Execute(r2, world);
      if world.fetch.FetchFailed? {
        assert Execute(r2, world) == r2;
      } else {
        var r3 := Step(r2, world);
        assert Execute(r2, world) == Execute(r3, world);
        if !world.fetch.body.Object? {
          assert Execute(r3, world) == r3;
        } else {
          Insert.TransformedRecordBinds(world.fetch.body.fields);
          var r4 := Step(r3, world);
          assert Execute(r3, world) == Execute(r4, world) == r4;
        }
      }
    }
  }

  /** The load consumes exactly the transform of the extracted body. */
  lemma LoadConsumesTransformOutput(table: seq<Row>, world: World)
    requires Pipeline(table, world).state.Loaded?
    ensures world.fetch.Fetched? && world.fetch.body.Object?
    ensures Pipeline(table, world).state.row
            == Insert.Parameters(Projection.Transform(world.fetch.body.fields)).value
  {
    Outcome(table, world);
  }

  /** A run whose extraction fails inserts no row and never runs the transform or the load. */
  lemma ExtractFailureIsolated(table: seq<Row>, world: World)
    requires world.schemaOk && world.fetch.FetchFailed?
    ensures Pipeline(table, world).table == table
    ensures Pipeline(table, world).ran == [CreateTable, ExtractApod]
  {
    Outcome(table, world);
    ChainOrder(table, world);
  }

  /** The loaded row never reports a missing column: a transform output always binds. */
  lemma NeverMissingColumn(table: seq<Row>, world: World)
    ensures !Pipeline(table, world).state.Failed?
            || !Pipeline(table, world).state.error.MissingColumn?
  {
    Outcome(table, world);
  }

  /** Nothing prevents duplicates: running the same successful day twice appends the same row twice. */
  lemma RerunAppendsDuplicate(table: seq<Row>, world: World)
    requires Pipeline(table, world).state.Loaded?
    ensures var first := Pipeline(table, world);
            var second := Pipeline(first.table, world);
            second.state == first.state
            && second.table == table + [first.state.row, first.state.row]
  {
    var first := Pipeline(table, world);
    Outcome(table, world);
    Outcome(first.table, world);
  }
}
