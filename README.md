# tank installer: schema differ, migrate batch and administrator provisioning

A Dafny model of the installer controller of the tank file server
(`rest/install_controller.go`). The installer runs once, before the server
is used. It works against a MySQL database that the operator names in each
request, and does four things:

- checks that the database is reachable (`Verify`);
- reports, for each of the nine entities, whether the entity's table exists
  and which stored columns are missing (`TableInfoList`, built on
  `getTableMeta`);
- lets gorm's `AutoMigrate` create or complete each table, in a fixed order,
  and reports again (`CreateTable`);
- checks the administrator form and builds the administrator's user record
  (`CreateAdmin`).

The database schema is a map from table name to the set of that table's
column names. Class `Database.LiveSchema` holds it in its field `tables`.
`AutoMigrate` is an opaque storage engine: a function that, given an
entity and the current schema, either refuses with a message or leaves the
entity's table with some set of columns. The one assumption the model makes
about the engine is the ghost predicate `Migrator.Trustworthy`: when it
succeeds, the table holds every normal field's column. The convergence
results require it. Apart from the entity's own table, the engine changes
nothing (`Migrator.After`).

Modules, leaves first:

- `Wrappers` (wrappers.dfy): `Option`, `Result`.
- `Errors` (errors.dfy): the ways a request can fail.
- `Entities` (entities.dfy): fields, entities, the report record, the
  nine-entity catalogue in its order.
- `Differ` (differ.dfy): the differ as specification functions, and what
  they satisfy.
- `Migrator` (migrator.dfy): the migrate batch as a specification over the
  schema: fail-fast, composition, frame, convergence.
- `Connection` (connection.dfy): port parsing (`strconv.Atoi`), opening and
  pinging the connection.
- `Database` (database.dfy): the class over the live schema. Its methods
  have the source's loops and are proved against the functions above.
- `Admin` (admin.dfy): the form checks, Go's byte length, the sort key and
  the record `CreateAdmin` builds.

Inputs the model cannot see are parameters:

- what the driver reports on open and on ping (`driver`, `ping`);
- the storage engine (`engine`);
- each entity's table name and fields (`shape`), which come from struct
  declarations that are not part of this model;
- the UUID, the four clock readings and the bcrypt hash.

## Behaviour of the code worth noting

The model follows the code in each case below.

- When a table is missing, the code reports every field as missing, non-normal fields included (`rest/install_controller.go:163`), not only the stored ones.
- A port that does not parse goes through the generic `PanicError` (line 88), not the bad-request path the form checks use. The model gives it its own kind, `PortInvalid`.
- The migrate error is gorm's error as it is (line 232). It does not carry the entity's name, so `MigrationFailed` holds only the message.
- The connection is opened before the administrator form is checked (line 252). A port or connection error therefore takes precedence over a form error.
- The password check uses Go's `len`, which counts UTF-8 bytes, not characters (line 264).
- `time.Now()` is read four separate times (lines 275-278). The four timestamps need not be equal.
- The error from `db.Create` is never checked (line 288), so no persistence error exists.

## Model

| member | source | states |
|---|---|---|
| `Differ.Missing` | rest/install_controller.go:168-173 | the fields, in order, that are normal and whose column is not in the live table: the filter the loop builds by appending |
| `Differ.Diff` | rest/install_controller.go:151-179 | the report of getTableMeta: an absent table gives `tableExist` false and every field missing; a live table gives `tableExist` true and `Missing` of its columns |
| `Differ.MissingMultiplicity` | rest/install_controller.go:168-173 | every occurrence of a normal field whose column is absent appears in the missing list, and no other field appears there |
| `Differ.MissingMember` | rest/install_controller.go:168-173 | a field is listed as missing if and only if it is a field of the entity, is normal, and its column is not in the live table |
| `Differ.MissingSubsequence` | rest/install_controller.go:168-173 | the missing fields are a subsequence of all the fields, in the same order |
| `Differ.DiffReport` | rest/install_controller.go:151-179 | the report carries the entity's name and all its fields. `tableExist` holds exactly when the table is live. An absent table lists every field as missing, non-normal ones included. A live table lists exactly its normal fields with absent columns. The missing fields always form a subsequence of all fields |
| `Differ.DiffConverged` | rest/install_controller.go:162-176 | the report shows an existing table with nothing missing if and only if the table exists and holds the column of every normal field |
| `Differ.SingleMissingColumn` | rest/install_controller.go:166-176 | a live table that lacks exactly one normal field's column, whatever other columns it has, is reported with exactly that field missing |
| `Entities.Definitions` | rest/install_controller.go:197 | the catalogue: nine entity definitions, the i-th being that of the i-th kind in the order Dashboard, DownloadToken, Footprint, ImageCache, Matter, Preference, Session, UploadToken, User (the same list as line 222) |
| `Database.LiveSchema.GetTableMeta` | rest/install_controller.go:151-179 | the loop's three results are the differ's report on the current schema (see `DiffReport`) |
| `Database.LiveSchema.TableInfoList` | rest/install_controller.go:195-217 | after a successful open: one report per catalogue entity, in catalogue order, each the differ's report on the unchanged schema. Two calls therefore agree. A failed open returns its error |
| `Database.LiveSchema.AutoMigrate` | rest/install_controller.go:231-232 | a refusal returns the engine's message and leaves the schema as it was. Otherwise only the entity's table changes, to the engine's columns |
| `Database.LiveSchema.MigrateEach` | rest/install_controller.go:228-242 | the loop of AutoMigrate followed by a re-diff ends in exactly the schema and outcome of `Migrator.MigrateAll` on the catalogue |
| `Database.LiveSchema.CreateTable` | rest/install_controller.go:220-246 | a failed open leaves the schema unchanged. Otherwise the schema and the result are those of `MigrateAll`, and a migrate error becomes `MigrationFailed`. Under the storage assumption, a successful run reports one record per catalogue entity, in order, each with an existing table and nothing missing |
| `Migrator.MigrateAll` | rest/install_controller.go:228-244 | the migrate batch: each entity in turn gets AutoMigrate's step and then a fresh diff; the first refusal ends the batch with its message and the schema as it then stands |
| `Migrator.MigrateSplit` | rest/install_controller.go:228-244 | migrating `a + b` means migrating `a`, then `b` only if `a` succeeded, from the schema `a` left. Nothing is rolled back |
| `Migrator.FailFast` | rest/install_controller.go:228-233 | if entity k is refused after the first k succeed, the batch fails with that message. The schema keeps the first k migrations, and no later entity is migrated |
| `Migrator.MigrateConverges` | rest/install_controller.go:222-244 | under the storage assumption, a successful batch has one record per entity, in order, each with the entity's name and fields, `tableExist` true and empty `missingFields` |
| `Migrator.MigrateFrame` | rest/install_controller.go:231 | a table that no entity of the batch names keeps its columns, or stays absent |
| `Migrator.InspectAfterMigrate` | rest/install_controller.go:197-244 | after a successful batch over entities with distinct tables, and under the storage assumption, inspecting any of them reports an existing table with nothing missing |
| `Connection.Atoi` | rest/install_controller.go:87 | strconv.Atoi with a 64-bit int: an optional sign, at least one decimal digit, a value within int64; anything else is refused |
| `Connection.ParsePort` | rest/install_controller.go:85-90 | an empty port field is port 0; any other field is Atoi's value, or `PortInvalid` when Atoi refuses it |
| `Connection.AtoiRoundTrip` | rest/install_controller.go:86-89 | every int64 written in decimal parses back to itself |
| `Connection.AtoiRejectsNonDigit` | rest/install_controller.go:87-88 | a port text with a character that is neither a digit nor a leading sign is refused |
| `Connection.AtoiRejectsOverflow` | rest/install_controller.go:87-88 | an integer outside int64 is refused |
| `Connection.ParsePortRule` | rest/install_controller.go:85-90 | an empty port is 0, the decimal form of any int64 is that number, and any other text that does not parse is `PortInvalid` |
| `Connection.Open` | rest/install_controller.go:78-102 | the port is parsed before the driver is consulted. A bad port fails with `PortInvalid`, a driver error with `ConnectionFailed`. A successful open carries the parsed port and the other parameters unchanged |
| `Connection.Verify` | rest/install_controller.go:182-192 | succeeds with "OK" if and only if the open succeeds and the ping reports no error. Otherwise the first error is returned |
| `Connection.BadPortFailsFirst` | rest/install_controller.go:85-90 | a non-numeric port makes Verify fail with `PortInvalid`, whatever the driver and the ping would report |
| `Connection.PortAbcRejected` | rest/install_controller.go:86-88 | the port text "abc" is refused |
| `Admin.Check` | rest/install_controller.go:260-270 | the form checks in order: username pattern, then password of at least six bytes, then a non-empty email; the first that fails is the rejection, none failing accepts |
| `Admin.Utf8Length` | rest/install_controller.go:264 | Go's len on a string: the number of bytes of its UTF-8 encoding |
| `Admin.Utf8LengthBounds` | rest/install_controller.go:264 | a string's byte length is between its character count and four times that |
| `Admin.Utf8LengthAscii` | rest/install_controller.go:264 | an ASCII string has one byte per character |
| `Admin.PasswordRule` | rest/install_controller.go:264-266 | six characters always pass the password check, one never does, and for ASCII passwords the rule is "at least six characters" |
| `Admin.PasswordCountsBytes` | rest/install_controller.go:260-270 | "ééé" (three characters, six bytes) passes, and "abc12" is refused as too short |
| `Admin.CheckExamples` | rest/install_controller.go:260-270 | "admin!" and the empty username are refused for the username, a missing email is refused, and ("admin_1", "abcdef", "a@b.com") is accepted |
| `Admin.SortKey` | rest/install_controller.go:278 | UnixNano() / 1e6 as Go computes it: integer division truncating toward zero |
| `Admin.SortKeyMillis` | rest/install_controller.go:278 | the sort key is the instant in whole milliseconds, truncated toward zero on both sides of the epoch |
| `Admin.SortKeyMonotone` | rest/install_controller.go:278 | a later instant never gets a smaller sort key |
| `Admin.CreateAdmin` | rest/install_controller.go:250-292 | an open failure wins. Then the first failing form check is returned as `BadRequest`. Success happens exactly when both pass. The record then has the given UUID and the four clock readings, sort = milliseconds, role administrator, the form's username and email, the hashed password (different from the plaintext whenever the hash has no fixed point), empty phone, gender unknown, size limit -1 and status OK |

## Left out

- MySQL and gorm I/O: `gorm.Open`, `Ping`, `Close` and the logging in `closeDbConnection`. What the driver reports on open and on ping is a parameter.
- `db.Create`: `CreateAdmin` returns the record it would persist. The source never checks that call's error, so there is no persistence-error outcome.
- The internals of gorm's `HasTable`, `HasColumn` and `AutoMigrate`. The schema is a map, and AutoMigrate's outcome is the `engine` parameter.
- Migrator.MigrateConverges: convergence rests on the stated storage assumption `Trustworthy`, not on gorm's code, which is not part of this model.
- Database.LiveSchema.AutoMigrate: a failed AutoMigrate is modelled as changing nothing. Any DDL it had already applied before failing is not modelled.
- `getCreateSQLFromFile`: it only looks up files and is never called by the four operations.
- `Init` (bean wiring through the global registry), `RegisterRoutes` and `Wrap` (HTTP routing and the guest-role gate).
- `GetMysqlUrl`: its formatting is not part of this model. The session carries the parameters as they are.
- UUID generation, bcrypt and `time.Now()` are parameters. So is the error of `uuid.NewV4`, which the source discards.
- Strings are sequences of Unicode scalar values, while Go strings are bytes. A form value that is not valid UTF-8 (a password sent as "%FF", whose Go `len` is 1) cannot be expressed. `Utf8Length`, `UsernameChar` and `IsDigit` therefore match the source only on valid UTF-8.
- Connection.Atoi: Go's `int` is fixed at 64 bits. On a 32-bit target strconv.Atoi would also refuse ports outside int32; that platform is not modelled.
- Connection.Atoi: the model does not separate strconv's syntax errors from its range errors. Both are one refusal.
- The struct declarations of the nine entities, and so their table names and fields, are not part of this model. They enter through `shape`.
- User-record fields that `CreateAdmin` does not assign keep Go's zero value, and only the fields it assigns are modelled.
- The string values of the role, gender and status constants are not modelled. Those fields are enumerations with an unset case.
- Logging, the response envelope of `Success` / `PanicBadRequest` / `PanicError`, and `defer`-based connection release.
- Concurrency: the installer assumes it has the database to itself.
