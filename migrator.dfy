/**
 * The migrate batch (CreateTable) as a specification over the schema:
 * AutoMigrate on each catalogue entity in order, each followed by a fresh
 * diff, stopping at the first error.
 */
module Migrator {
  import opened Wrappers
  import opened Entities
  import opened Differ

  /**
   * What the storage engine's AutoMigrate did for one entity: it failed with
   * a message and changed nothing, or the entity's table now exists with
   * exactly the given columns.
   */
  datatype Reply = Refused(message: string) | Applied(columns: set<string>)

  /** AutoMigrate as seen by the installer: a reply for an entity on a schema. */
  type Engine = (Entity, Tables) -> Reply

  /**
   * The assumption the model makes of the storage abstraction: whenever
   * AutoMigrate succeeds, the entity's table holds every normal field's
   * column. That other tables are untouched is built into `After`.
   */
  ghost predicate Trustworthy(engine: Engine)
  {
    forall e, tables :: engine(e, tables).Applied? ==> NormalColumns(e) <= engine(e, tables).columns
  }

  /** The schema after one AutoMigrate reply for `e`. */
  function After(tables: Tables, e: Entity, reply: Reply): Tables
  {
    match reply
    case Refused(_) => tables
    case Applied(columns) => tables[e.tableName := columns]
  }

  /** The final schema and the outcome of a batch: the reports, or the first error. */
  datatype Run = Run(tables: Tables, outcome: Result<seq<TableInfo>, string>)

  /** Adds `infos` in front of a run's reports; a failed run stays as it is. */
  function Prepend(infos: seq<TableInfo>, run: Run): Run
  {
    match run.outcome
    case Success(rest) => Run(run.tables, Success(infos + rest))
    case Failure(_) => run
  }

  /** Migrating `es` in order starting from `tables`. */
  function MigrateAll(es: seq<Entity>, tables: Tables, engine: Engine): Run
    decreases |es|
  {
    if es == [] then Run(tables, Success([]))
    else
      match engine(es[0], tables)
      case Refused(message) => Run(tables, Failure(message))
      case Applied(_) =>
        var next := After(tables, es[0], engine(es[0], tables));
        Prepend([Diff(es[0], next)], MigrateAll(es[1..], next, engine))
  }

  lemma PrependNothing(run: Run)
    ensures Prepend([], run) == run
  {
    if run.outcome.Success? {
      assert [] + run.outcome.value == run.outcome.value;
    }
  }

  lemma PrependPrepend(a: seq<TableInfo>, b: seq<TableInfo>, run: Run)
    ensures Prepend(a, Prepend(b, run)) == Prepend(a + b, run)
  {
    if run.outcome.Success? {
      assert a + (b + run.outcome.value) == (a + b) + run.outcome.value;
    }
  }

  /**
   * Batches compose: migrating `a + b` is migrating `a`, then, only if that
   * succeeded, migrating `b` from where `a` left the schema. A failure in `a`
   * makes `b` irrelevant; a failure in `b` keeps what `a` did.
   */
  lemma {:induction false} MigrateSplit(a: seq<Entity>, b: seq<Entity>, tables: Tables, engine: Engine)
    ensures MigrateAll(a + b, tables, engine) ==
      var first := MigrateAll(a, tables, engine);
      if first.outcome.Failure? then first
      else Prepend(first.outcome.value, MigrateAll(b, first.tables, engine))
  {
    if a == [] {
      assert a + b == b;
      var run := MigrateAll(b, tables, engine);
      if run.outcome.Success? {
        assert [] + run.outcome.value == run.outcome.value;
      }
    } else {
      assert (a + b)[0] == a[0];
      assert (a + b)[1..] == a[1..] + b;
      match engine(a[0], tables)
      case Refused(_) =>
      case Applied(columns) =>
        var next := tables[a[0].tableName := columns];
        MigrateSplit(a[1..], b, next, engine);
        var rest := MigrateAll(a[1..], next, engine);
        if rest.outcome.Success? {
          PrependPrepend([Diff(a[0], next)], rest.outcome.value, MigrateAll(b, rest.tables, engine));
        }
    }
  }

  /**
   * Fail-fast without rollback: when the first k entities migrate and entity
   * k is refused, the batch fails with that message, the schema keeps the
   * first k migrations, and no later entity is migrated.
   */
  lemma FailFast(es: seq<Entity>, k: nat, tables: Tables, engine: Engine)
    requires k < |es|
    requires MigrateAll(es[..k], tables, engine).outcome.Success?
    requires engine(es[k], MigrateAll(es[..k], tables, engine).tables).Refused?
    ensures MigrateAll(es, tables, engine) ==
      var done := MigrateAll(es[..k], tables, engine).tables;
      Run(done, Failure(engine(es[k], done).message))
  {
    assert es == es[..k] + es[k..];
    MigrateSplit(es[..k], es[k..], tables, engine);
    assert es[k..][0] == es[k];
  }

  /**
   * Convergence: under the storage assumption, a successful batch reports
   * one record per entity, in order, each with the entity's name and
   * fields, an existing table and nothing missing.
   */
  lemma {:induction false} MigrateConverges(es: seq<Entity>, tables: Tables, engine: Engine)
    requires Trustworthy(engine)
    ensures var run := MigrateAll(es, tables, engine);
      run.outcome.Success? ==>
        |run.outcome.value| == |es| &&
        forall i :: 0 <= i < |es| ==>
          run.outcome.value[i] == TableInfo(es[i].tableName, true, es[i].fields, [])
  {
    if es != [] {
      match engine(es[0], tables)
      case Refused(_) =>
      case Applied(columns) =>
        var next := tables[es[0].tableName := columns];
        MigrateConverges(es[1..], next, engine);
        DiffConverged(es[0], next);
        DiffReport(es[0], next);
    }
  }

  /** Tables that no entity of the batch names keep their columns. */
  lemma {:induction false} MigrateFrame(es: seq<Entity>, tables: Tables, engine: Engine, name: string)
    requires forall i :: 0 <= i < |es| ==> es[i].tableName != name
    ensures var after := MigrateAll(es, tables, engine).tables;
      (name in after <==> name in tables) && (name in tables ==> after[name] == tables[name])
  {
    if es != [] {
      match engine(es[0], tables)
      case Refused(_) =>
      case Applied(columns) =>
        MigrateFrame(es[1..], tables[es[0].tableName := columns], engine, name);
    }
  }

  /**
   * Inspecting after a successful batch: under the storage assumption and
   * with distinct table names, every entity of the batch is converged in
   * the final schema.
   */
  lemma {:induction false} InspectAfterMigrate(es: seq<Entity>, tables: Tables, engine: Engine)
    requires Trustworthy(engine)
    requires DistinctTables(es)
    requires MigrateAll(es, tables, engine).outcome.Success?
    ensures forall i :: 0 <= i < |es| ==>
      Diff(es[i], MigrateAll(es, tables, engine).tables) == TableInfo(es[i].tableName, true, es[i].fields, [])
  {
    if es != [] {
      match engine(es[0], tables)
      case Applied(columns) =>
        var next := tables[es[0].tableName := columns];
        var final := MigrateAll(es, tables, engine).tables;
        assert final == MigrateAll(es[1..], next, engine).tables;
        InspectAfterMigrate(es[1..], next, engine);
        MigrateFrame(es[1..], next, engine, es[0].tableName);
        DiffConverged(es[0], final);
        DiffReport(es[0], final);
        forall i | 1 <= i < |es|
          ensures Diff(es[i], final) == TableInfo(es[i].tableName, true, es[i].fields, [])
        {
          assert es[i] == es[1..][i - 1];
        }
    }
  }
}
