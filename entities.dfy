/** Entity definitions as gorm's reflection presents them, and the live schema. */
module Entities {

  /**
   * One struct field of an entity: its Go name, the column it maps to, and
   * whether gorm treats it as a normal (stored) field.
   */
  datatype Field = Field(name: string, dbName: string, isNormal: bool)

  /** An entity: its table name and all its struct fields, in declaration order. */
  datatype Entity = Entity(tableName: string, fields: seq<Field>)

  /** The live database schema: every existing table with the set of its column names. */
  type Tables = map<string, set<string>>

  /** One entry of the installer's table report. */
  datatype TableInfo = TableInfo(name: string, tableExist: bool, allFields: seq<Field>, missingFields: seq<Field>)

  /** The nine entities the installer knows about. */
  datatype Kind =
    | Dashboard | DownloadToken | Footprint | ImageCache | Matter
    | Preference | Session | UploadToken | User

  /** The order in which the installer inspects and migrates the entities. */
  const CATALOGUE: seq<Kind> :=
    [Dashboard, DownloadToken, Footprint, ImageCache, Matter, Preference, Session, UploadToken, User]

  /**
   * The catalogue's entity definitions; `shape` gives each kind's table name
   * and fields, which come from struct declarations outside this model.
   */
  function Definitions(shape: Kind -> Entity): (es: seq<Entity>)
    ensures |es| == |CATALOGUE| && forall i :: 0 <= i < |es| ==> es[i] == shape(CATALOGUE[i])
  {
    [shape(Dashboard), shape(DownloadToken), shape(Footprint), shape(ImageCache), shape(Matter),
     shape(Preference), shape(Session), shape(UploadToken), shape(User)]
  }

  /** The columns AutoMigrate is expected to provide: those of the normal fields. */
  function NormalColumns(e: Entity): set<string>
  {
    set f | f in e.fields && f.isNormal :: f.dbName
  }

  /** No two entities share a table. */
  predicate DistinctTables(es: seq<Entity>)
  {
    forall i, j :: 0 <= i < j < |es| ==> es[i].tableName != es[j].tableName
  }
}
