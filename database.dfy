/**
 * The live database the installer works on, and the controller operations
 * that read or change its schema: getTableMeta, TableInfoList, CreateTable.
 */
module Database {
  import opened Wrappers
  import opened Errors
  import opened Entities
  import opened Differ
  import opened Migrator
  import Connection

  class LiveSchema {
    /** Every table of the database, with its columns. */
    var tables: Tables

    constructor (initial: Tables)
      ensures tables == initial
    {
      tables := initial;
    }

    /**
     * getTableMeta: whether e's table exists, all of e's fields, and the
     * fields missing from it. Reads the schema only.
     */
    method GetTableMeta(e: Entity) returns (exist: bool, allFields: seq<Field>, missingFields: seq<Field>)
      ensures TableInfo(e.tableName, exist, allFields, missingFields) == Diff(e, tables)
    {
      allFields := e.fields;
      missingFields := [];
      if e.tableName !in tables {
        missingFields := missingFields + allFields;
        return false, allFields, missingFields;
      }
      var columns := tables[e.tableName];
      for i := 0 to |allFields|
        invariant missingFields == Missing(allFields[..i], columns)
      {
        var field := allFields[i];
        assert allFields[..i + 1][..i] == allFields[..i];
        if field.dbName !in columns {
          if field.isNormal {
            missingFields := missingFields + [field];
          }
        }
      }
      assert allFields[..|allFields|] == allFields;
      exist := true;
    }

    /** AutoMigrate for one entity, as the storage engine answers it. */
    method AutoMigrate(e: Entity, engine: Engine) returns (error: Option<string>)
      modifies this
      ensures tables == After(old(tables), e, engine(e, old(tables)))
      ensures error == match engine(e, old(tables)) case Refused(m) => Some(m) case Applied(_) => None
    {
      match engine(e, tables)
      case Refused(message) =>
        error := Some(message);
      case Applied(columns) =>
        tables := tables[e.tableName := columns];
        error := None;
    }

    /**
     * TableInfoList: after a connection opens, one report per catalogue
     * entity, in catalogue order, each the differ's report on the current
     * schema. The schema is not changed, so two calls agree.
     */
    method TableInfoList(params: Connection.Params, driver: Option<string>, shape: Kind -> Entity)
      returns (r: Result<seq<TableInfo>, InstallError>)
      ensures Connection.Open(params, driver).Failure? ==> r == Failure(Connection.Open(params, driver).error)
      ensures Connection.Open(params, driver).Success? ==>
        r.Success? && |r.value| == |CATALOGUE| &&
        forall i :: 0 <= i < |CATALOGUE| ==> r.value[i] == Diff(shape(CATALOGUE[i]), tables)
    {
      var session := Connection.Open(params, driver);
      if session.Failure? {
        return Failure(session.error);
      }
      var definitions := Definitions(shape);
      var infos: seq<TableInfo> := [];
      for i := 0 to |definitions|
        invariant |infos| == i
        invariant forall j :: 0 <= j < i ==> infos[j] == Diff(definitions[j], tables)
      {
        var exist, allFields, missingFields := GetTableMeta(definitions[i]);
        infos := infos + [TableInfo(definitions[i].tableName, exist, allFields, missingFields)];
      }
      r := Success(infos);
    }

    /**
     * The body of CreateTable's loop over `es`: AutoMigrate and re-diff each
     * entity in order, returning at the first error.
     */
    method MigrateEach(es: seq<Entity>, engine: Engine) returns (outcome: Result<seq<TableInfo>, string>)
      modifies this
      ensures Run(tables, outcome) == MigrateAll(es, old(tables), engine)
    {
      ghost var initial := tables;
      var infos: seq<TableInfo> := [];
      assert es[0..] == es;
      PrependNothing(MigrateAll(es, initial, engine));
      for i := 0 to |es|
        invariant MigrateAll(es, initial, engine) == Prepend(infos, MigrateAll(es[i..], tables, engine))
      {
        var e := es[i];
        assert es[i..][0] == e && es[i..][1..] == es[i + 1..];
        var error := AutoMigrate(e, engine);
        if error.Some? {
          return Failure(error.value);
        }
        var exist, allFields, missingFields := GetTableMeta(e);
        PrependPrepend(infos, [Diff(e, tables)], MigrateAll(es[i + 1..], tables, engine));
        infos := infos + [TableInfo(e.tableName, exist, allFields, missingFields)];
      }
      assert infos + [] == infos;
      outcome := Success(infos);
    }

    /**
     * CreateTable: after a connection opens, AutoMigrate and re-diff every
     * catalogue entity in order, stopping at the first error with the
     * schema as far as it got. Under the storage assumption every report of
     * a successful run shows an existing table with nothing missing.
     */
    method CreateTable(params: Connection.Params, driver: Option<string>, shape: Kind -> Entity, engine: Engine)
      returns (r: Result<seq<TableInfo>, InstallError>)
      modifies this
      ensures Connection.Open(params, driver).Failure? ==>
        r == Failure(Connection.Open(params, driver).error) && tables == old(tables)
      ensures Connection.Open(params, driver).Success? ==>
        var run := MigrateAll(Definitions(shape), old(tables), engine);
        tables == run.tables &&
        r == match run.outcome case Success(infos) => Success(infos) case Failure(m) => Failure(MigrationFailed(m))
      ensures Connection.Open(params, driver).Success? && Trustworthy(engine) && r.Success? ==>
        |r.value| == |CATALOGUE| &&
        forall i :: 0 <= i < |CATALOGUE| ==>
          r.value[i] == TableInfo(shape(CATALOGUE[i]).tableName, true, shape(CATALOGUE[i]).fields, [])
    {
      var session := Connection.Open(params, driver);
      if session.Failure? {
        return Failure(session.error);
      }
      var definitions := Definitions(shape);
      ghost var initial := tables;
      var outcome := MigrateEach(definitions, engine);
      r := match outcome
        case Success(infos) => Success(infos)
        case Failure(message) => Failure(MigrationFailed(message));
      if Trustworthy(engine) {
        MigrateConverges(definitions, initial, engine);
      }
    }
  }
}
